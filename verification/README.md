# Verified model of the kernel

A Dafny 4.11 model of the five parts of this small x86 SMP kernel whose correctness rests on more than
one function at a time, with proofs of what each of them promises. `dafny verify dfyconfig.toml` checks
everything.

## What is modelled

**Copy-on-write memory.** `PhysMem` (with `Frames` for words and frames and `Sets` for counting) is the frame
allocator with its two-level reference counters, where the counter tables are frames themselves and the free
list is kept inside the free frames. `PageGraph`
is the ownership graph over it: every counted reference is a token (a process's cr3, a table entry, a
local variable of the kernel, a page left behind by a process that was ended), and its invariant ties
counters, entries and flags together. `VmmSteps`, `DirSteps`, `ProtectSteps`, `DropSteps`, `ClearSteps`,
`MapSteps` and `FaultSteps` prove what single writes and releases do to the graph; `Vmm` is the imperative
code of `kernel/vmm.cc`, loop by loop; `Mmu` is the hardware's 32-bit page walk; `Boot` builds the kernel's
tables. `EagerCopy` is an independent description of what processes should see: each owns its pages
outright and fork copies all of them. `History` says the same without spaces: what a load gives is the word last
stored, found by going back through the events. `Machine.RunFromBoot` runs any sequence of create, fork, load,
store, exec and exit from power-on and proves that every reply is the one eager copying gives, and the one that
the history demands.

**Heap.** `HeapBlocks` and `Heap`: the boundary-tag allocator in one array of integers. Tags, links and
payloads share the array; the invariant says which integer belongs to what, every method is proved to
leave the payloads of live blocks alone, and a client may write to its own.

**Threads.** `Scheduler` is a transition system with one program counter per core and any number of threads,
cores, semaphores and conditions; `SchedulerSteps` proves its invariant step by step, `SchedulerFrames` says what
each step leaves alone, `SchedulerFacts` states what follows for every run, and `SchedulerEffects` what each
operation does to the queues: who is woken, in which order, and when a core can go on. `Reaper` proves over all
runs that no thread that stopped is forgotten. `Preemption` adds the timer interrupt, the no_preempt flags and the
interrupt flag of each core and proves that a tick is never more than a yield. `ReusableBarrier` works on
semaphore values; `BarrierSemaphores` proves that the blocking semaphores of `Scheduler` implement them.
`Barrier` has its own wait and notifyAll; `BarrierConditions` proves that the conditions of `Scheduler` implement
them. `SafeLock` is a transition system of its own, `Queue` is the intrusive list.

**Files.** `BlockIo` reads bytes over blocks, once for the disk and once for a file on it, with the one-block
cache; descriptors read files piece by piece. `Ext2` parses directory entries in place from the blocks read, and
`Ext2.Open`, the loop with its jumps, is proved equal to a recursive resolver over path components and the
bytes of the disk. `PathLaws` says what that means for each form of path and for the bytes of a directory.
`IndirectBlocks` compares where the source looks for the blocks of a file with the layout of ext2.

**exec arguments.** `ExecArgs` packs the argument list found in one address space and lays it out in another,
with the size summed in 32 bits as in the source and the buffer taken from the `Heap`.

The form follows the source: code that writes tables, arrays and fields step by step is written as classes,
arrays and loops; interleavings are state machines over steps.

A result of type `Outcome` is `Panicked` when the source calls `Debug::panic`, after which nothing runs. For
memory the contracts say why that can be: no frame is left, or a 16-bit counter is at 65535
(`Allocator.Stuck`).

## Findings

- `kernel/heap.cc:145`: `(bytes + 3) / 4` wraps for requests of 2^32-3 bytes and more, which get a block of 8
  bytes. `Heap.RequestHonoured` proves that all other requests, and only those, get what they ask for.
- `kernel/atomic.h:200-232`: the interrupt flag is restored by the lock that was taken first. Locks given up
  in another order turn interrupts on while a lock is still held: `SafeLock.OutOfOrderExample` is a run from the
  initial state up to such an unlock, `SafeLock.UnlockOutOfOrder` the exact condition on one unlock, and
  `SafeLock.RunKeepsInv` proves that runs whose unlocks all meet it are safe, in whatever order.
- `kernel/sys.cc:226-239` and `262-271`: the size of the argument block is summed in 32 bits, and the buffer for it
  comes from malloc, whose rounding wraps as well. The buffer holds the block exactly when the true size is below
  2^32-3 (`ExecArgs.GrantHolds`, `ExecArgs.Exec`). `ExecArgs.SumWraps` is a list in a quarter of a megabyte of memory
  whose size wraps to 131076, `ExecArgs.RoundingWraps` one of size 2^32-3, for which malloc gives a block of four
  integers; in both the first string already leaves the buffer. Where only the sum wraps, the placement in the new
  address space looks right all the same (`ExecArgs.HeapBelowStack`).
- `kernel/ext2.cc:36-63`: in the blocks that a doubly or trebly indirect block names, the source reads a number at
  byte i where entry i stands four times as far. `IndirectBlocks.FilesRead` proves that files of up to 13 + p blocks, with p numbers in a block,
  are read as they are laid out on every disk, and that this is the exact bound: `IndirectBlocks.LargeFileMisread`
  is a disk on which every larger file is misread.
- `kernel/vmm.cc:221`: when `map_copy` ends the process, the frame allocated for the fault stays counted and
  nothing maps it. The graph carries such frames as `Leaked`; `ProcSteps.NothingLost` proves that they are the
  only frames nobody uses. A fault leaves one such frame if and only if a user program wrote to a page the kernel
  maps in the upper half (`Vmm.Vmm.PageFault`), for instance to the local APIC (`Machine.ApicWrite`).
- `kernel/vmm.cc:52-68`: `discard` is read without having been set when the table has no global entry;
  `ClearSteps.GlobalNotEmpty` proves that this never happens.

## Model

| member | source | states |
|---|---|---|
| PhysMem.Allocator.constructor | kernel/physmem.cc:69-78 | a fresh allocator satisfies the invariant: nothing is in use, and there is one table entry per 2048 frames |
| PhysMem.Allocator.UnsafeAllocFrame | kernel/physmem.cc:25-46 | panics exactly if the free list is empty and the high-water mark at its limit; else hands out the head of the list or the next new frame, zeroed, and keeps the invariant |
| PhysMem.Allocator.DeallocFrame | kernel/physmem.cc:54-66 | the frame becomes the head of the list kept inside the free frames |
| PhysMem.Allocator.EnsureTable | kernel/physmem.h:44-47 | afterwards the counter table of an entry exists, all counts and all contents of client frames are as before |
| PhysMem.Allocator.IncRef | kernel/physmem.h:39-51 | exactly this frame's count rises by one, the packed populations stay right, no client frame changes content; it ends the run only if no frame is left or the counter is full |
| PhysMem.Allocator.AllocFrame | kernel/physmem.cc:48-52 | the frame belonged to nobody, is all zero and has a count of one |
| PhysMem.Allocator.Decrement | kernel/physmem.h:54-63 | the first half of decref: says whether the last reference went, after which the frame is pending until its callback is done |
| PhysMem.Allocator.Release | kernel/physmem.h:65-69 | the second half: the frame is free, its table gone if that was the last counted frame, all other clients as before |
| PhysMem.Allocator.DecRef | kernel/physmem.h:53-70 | one reference less, or the frame is free; with the empty callback |
| PhysMem.TakenOk | kernel/physmem.cc:25-46 | handing out a frame keeps free list, tables and populations consistent |
| PhysMem.FirstReferenceOk | kernel/physmem.h:48-50 | raising a counter from zero and the population with it keeps every table's count exact |
| PhysMem.ReleasedOk | kernel/physmem.h:65-68 | freeing a frame, lowering the population and freeing an empty table keeps the invariant, with other frames still pending from nested callbacks |
| PhysMem.MembersBound | kernel/physmem.h:39-51 | a table counts at most 2048 frames, so the population never carries into the address it is packed with |
| PhysMem.TwoLevelCounters | kernel/physmem.h:39-70 | between calls the low 12 bits of an entry are the number of non-zero counters in its table, and the table exists exactly if that is not zero |
| PhysMem.CounterOf | kernel/physmem.h:41-49 | every index is in bounds and the counter found in memory is the number of references |
| PhysMem.Partition | kernel/physmem.cc:25-66 | every frame of the range is in exactly one of: never used, on the free list once, counter table, with a client; the links in memory are an acyclic list of exactly the free ones |
| Vmm.Vmm.constructor | kernel/vmm.cc:245-269 | the invariant holds for an allocator that only the kernel's own tables use |
| Vmm.Vmm.Alloc | kernel/physmem.cc:48-52 | a new directory, table or page with exactly one reference, that nothing maps |
| Vmm.Vmm.CopyPg | kernel/vmm.cc:102-107 | a new page with the content of another |
| Vmm.Vmm.CopyPt | kernel/vmm.cc:109-138 | the new table has the kernel's entries, shares the read-only pages with one more reference each, and owns copies of the writable ones; nothing else changes |
| Vmm.Vmm.CopyPd | kernel/vmm.cc:140-168 | the new directory shows at every page exactly what the old one shows, and every directory shows what it showed |
| Vmm.Vmm.WriteProtect | kernel/vmm.cc:228-243 | only RW bits change; afterwards no private page below the directory is writable, and a directory entry stays writable only over a table with kernel entries |
| Vmm.Vmm.DestroyPt | kernel/vmm.cc:32-38 | every reference held by a dying table is given up, once; pages others use stay as they are |
| Vmm.Vmm.DecRefTab | kernel/physmem.h:53-70 | decref with callback destroy_pt: one reference to a table goes, and with the last one the table and its references; all that is left is unchanged |
| Vmm.Vmm.DestroyPd | kernel/vmm.cc:40-48 | a process's directory and its references go; no frame another process reaches is touched |
| Vmm.Vmm.ClearPt | kernel/vmm.cc:50-69 | private pages are given up and their entries zero, kernel entries stay, the assertion at the end holds |
| Vmm.Vmm.ClearPd | kernel/vmm.cc:71-93 | afterwards the directory maps nothing private, is still complete, and no other directory shows a difference |
| Vmm.Vmm.CopyKpd | kernel/vmm.cc:95-100 | a directory with all kernel entries under which every user page reads as zeros |
| Vmm.Vmm.UnshareTable | kernel/vmm.cc:195-198 | a table that may be shared is replaced by a private copy with the same pages, also when others still use the old one |
| Vmm.Vmm.OwnTable | kernel/vmm.cc:191-198 | whatever the directory entry was, afterwards it names a writable table of this process alone, and nobody sees a difference |
| Vmm.Vmm.Map | kernel/vmm.cc:186-202 | the page is mapped writable for user programs and every process reads what it read before |
| Vmm.Vmm.MapCopy | kernel/vmm.cc:204-226 | ends the process exactly if the page was already writable, leaving the new frame counted and unmapped; else the page is now a private writable copy and every process reads what it read before |
| Vmm.Vmm.PageFault | kernel/vmm.cc:280-308 | on a fault raised by the hardware the process is ended exactly if the address is below 0x80000000 or a kernel mapping; otherwise the page is writable afterwards and nobody sees a difference; exactly one new frame is left behind if a user program wrote to a kernel mapping in the upper half, and none otherwise |
| DirSteps.DirCopiedView | kernel/vmm.cc:140-168 | entry-wise copying with sharing gives the same view of all 2^20 pages |
| ProtectSteps.RwOnlyView | kernel/vmm.cc:228-243 | changing RW bits changes no process's view |
| ProtectSteps.GlobalTableFound | kernel/vmm.cc:234-240 | the inner loop restores RW on every directory entry whose table has kernel entries |
| ClearSteps.GlobalNotEmpty | kernel/vmm.cc:50-69 | a private table reached through a global entry contains a kernel entry, so the assertion on discard always holds |
| ClearSteps.ClearedIsKernel | kernel/vmm.cc:71-93 | after clear_pd every address has the same leaf entry as under the kernel's own directory |
| ClearSteps.ClearedView | kernel/vmm.cc:71-93 | after clear_pd every user page reads as zeros |
| DropSteps.LosesView | kernel/physmem.h:53-70 | releasing references recursively changes nothing in what a surviving directory shows |
| Mmu.Indices | kernel/vmm.cc:188-189 | an address is its two table indices, the word in the page and the byte in the word, and user addresses are those of the upper half |
| FaultSteps.FaultMeaning | kernel/vmm.cc:286-307 | in every reachable state a fault is a user access to a kernel page, a write to a read-only private page, or an absent page, and the error code tells which |
| FaultSteps.KernelPageFaults | kernel/vmm.cc:286-301 | a user access to a page the kernel maps always faults, also through a private table that copied the kernel entry |
| FaultSteps.KernelAccess | kernel/vmm.cc:109-168 | the kernel reads and writes its own pages under every directory, also through a private table that copied its entries |
| FaultSteps.WritableAllowed | kernel/vmm.cc:300-307 | once both entries are writable for users the retried access succeeds |
| FaultSteps.LeakPage | kernel/vmm.cc:221 | the terminate branch leaves a counted frame that nothing maps, and the invariant holds with it |
| Boot.KernelTables.FullTable | kernel/vmm.cc:252-255 | the table maps 4 MB to the frames of the same numbers with the kernel's flags |
| Boot.KernelTables.MapKernel | kernel/vmm.cc:186-202 | mapping with the kernel's flags adds exactly one page to the identity map, with a new table if needed |
| Boot.KernelTables.GlobalInit | kernel/vmm.cc:245-269 | for every memory size from 4 MB up, also one that is no multiple of 4 MB, the kernel maps exactly all frames but the null page, and both APIC pages, to themselves |
| Boot.KernelTables.Start | kernel/vmm.cc:271-276 | the tables built at boot are what the process code relies on |
| ProcSteps.OwnDirs | kernel/process.cc:55-59 | no two processes have the same directory |
| ProcSteps.CountsExact | kernel/vmm.cc:32-226 | in every reachable state a directory's count is 1, a table's the number of private directory entries naming it, a page's the number of private entries in live tables naming it, plus one if it was left behind |
| ProcSteps.EntriesBelow | kernel/vmm.cc:109-168 | tables are named by directories and pages by tables only, always at the same virtual place |
| ProcSteps.WritableIsCountedOnce | kernel/vmm.cc:127-243 | a writable private entry names a frame with a count of one, and under a read-only directory entry nothing private is writable |
| ProcSteps.WritableExclusive | kernel/vmm.cc:127-243 | a page that can be written is reached by one process at one address only |
| ProcSteps.StoreStep | kernel/vmm.cc:109-243 | a store through a writable translation changes one word of one process's view and of no other |
| ProcSteps.NothingLost | kernel/vmm.cc:32-93 | every counted frame is reached by some process or was left behind on the terminate branch; whatever only an ended process used is free |
| ProcSteps.ExecStep | kernel/process.cc:49-53 | clearing one process's directory empties its space and leaves all others |
| ProcSteps.AllowedPage | kernel/vmm.cc:280-308 | a user access the hardware allows reaches the private page that the process is shown |
| Machine.Machine.Create | kernel/vmm.cc:95-100 | a new process sees an empty space, all others what they saw |
| Machine.Machine.Fork | kernel/process.cc:55-59 | the child sees a full copy of the parent's space, in the order write_protect, then copy_pd |
| Machine.Machine.Exec | kernel/process.cc:49-53 | the process sees an empty space, all others what they saw |
| Machine.Machine.Exit | kernel/vmm.cc:40-48 | the process and its space go, all others see what they saw |
| Machine.Machine.Reach | kernel/vmm.cc:280-308 | an access succeeds after at most one fault exactly if the address is the user's; faults are invisible; otherwise the process is ended |
| Machine.Machine.Load | kernel/vmm.cc:280-308 | reads the word that eager copying would hold |
| Machine.Machine.Store | kernel/vmm.cc:280-308 | changes that word in the writer's space only |
| Machine.Machine.Step | kernel/vmm.cc:28-308 | one event refines the same event on eagerly copied spaces, with the same reply |
| Machine.Machine.Run | kernel/vmm.cc:28-308 | every run does, and the invariant holds throughout |
| Machine.ApicWrite | kernel/vmm.cc:221-301 | with the local APIC at 0xFEE00000, as boot maps it, a user write there faults in every process and is an access that leaves a frame behind |
| Machine.RunFromBoot | kernel/vmm.cc:245-308 | from power-on, for any memory size and any events, all replies are those of eager copying, and those that the history of stores, forks and execs demands, unless frames or counters run out |
| History.EventDue | kernel/vmm.cc:28-308 | one event of eager copying gets the reply that the events before it demand: a load the word last stored by this process, or by its parent before the fork, or zero; refused and killed exactly when the process or the address is not there to use |
| History.RepliesDue | kernel/vmm.cc:28-308 | so does every event of every run |
| Machine.KernelSeesMemory | kernel/vmm.cc:245-269 | after boot the kernel reaches all memory but the null page, and both APIC pages, at their physical addresses in every process |
| HeapBlocks.RemoveOk | kernel/heap.cc:85-99 | unlinking one block keeps the list a doubly linked list of exactly the other available blocks and touches no tag and no payload |
| HeapBlocks.JoinOk | kernel/heap.cc:210-219 | two neighbouring blocks being worked on may be seen as one |
| HeapBlocks.CutOk | kernel/heap.cc:178-181 | a block being worked on may be seen as two |
| HeapBlocks.TakenOk | kernel/heap.cc:112-115 | tagging closes a block as taken |
| HeapBlocks.PushedOk | kernel/heap.cc:101-110 | tagging and pushing closes a block as available, first in the list |
| HeapBlocks.NodeFacts | kernel/heap.cc:69-75 | the links of a listed block lie inside it and name its list neighbours |
| Heap.Heap.constructor | kernel/heap.cc:126-138 | heapInit: one available block of len-4 integers at index 2 between two taken sentinels, whatever the memory held |
| Heap.Heap.MakeTaken | kernel/heap.cc:112-115 | writes the two tags of a taken block and nothing else |
| Heap.Heap.MakeAvail | kernel/heap.cc:101-110 | writes two tags, two links and the old head's back link and nothing else |
| Heap.Heap.Remove | kernel/heap.cc:85-99 | the block leaves the list; live payloads stay |
| Heap.Heap.Allot | kernel/heap.cc:176-186 | the block is taken, and split exactly if at least four integers would be left |
| Heap.Heap.Malloc | kernel/heap.cc:140-189 | null iff no available block holds the bytes; else the earliest of the smallest among the first 20 that hold them; live payloads never change |
| Heap.Heap.MallocFirstFit | etan.dir/sbin/heap.c:125-161 | null iff no available block holds the bytes; else the first that does |
| Heap.Heap.MergeLeft | kernel/heap.cc:207-214 | the block absorbs an available left neighbour, found by its footer |
| Heap.Heap.MergeRight | kernel/heap.cc:208-219 | the block absorbs an available right neighbour |
| Heap.Heap.Free | kernel/heap.cc:191-222 | panics exactly on an available block; else the block and its available neighbours become one available block at the head of the list and all other payloads stay |
| Heap.Heap.FreeAll | kernel/heap.cc:191-222 | freeing every live block, in any order, restores the heap as it was after heapInit |
| Heap.Heap.Store | kernel/heap.cc:140-222 | a client that writes within its block keeps the heap intact and all other payloads as they were |
| Heap.ClientStore | kernel/heap.cc:69-115 | tags, links and the payloads of other live blocks lie outside a live block's payload |
| Heap.RequestHonoured | kernel/heap.cc:145-146 | the block size covers the request exactly if the rounding up does not wrap around 2^32, and then wastes less than two integers |
| Heap.RequestWraps | kernel/heap.cc:145-146 | a request that wraps |
| Heap.IntsLeast | kernel/heap.cc:145-146 | a block is large enough for the search exactly if it holds the bytes between its tags; a request that wraps counts as one for eight |
| Heap.BestIsChosen | kernel/heap.cc:155-174 | the choice by block sizes is the choice among the first twenty blocks that hold the bytes |
| Heap.BestSoFar | kernel/heap.cc:155-174 | stopping after the 20th fit loses nothing of what the search promises |
| Heap.AllottedLive | kernel/heap.cc:176-186 | malloc adds exactly one live block, at least as large as needed and by less than four integers larger; the others keep their extent |
| Heap.LiveAfterFree | kernel/heap.cc:191-222 | free removes exactly one live block |
| Heap.PayloadsDisjoint | kernel/heap.cc:140-222 | payloads of different live blocks do not overlap |
| Heap.Covers | kernel/heap.cc:25-35 | every integer of the array is in exactly one block |
| Heap.EverythingFree | kernel/heap.cc:191-222 | without live blocks there is one available block of len-4 integers at index 2 |
| SchedulerSteps.StepKeepsInv | kernel/threads.h:91-138 | every step of any core keeps the invariant over places, queues, saved registers, semaphores and conditions |
| SchedulerFacts.InitialOk | kernel/threads.cc:82-95 | threadsInit establishes it |
| SchedulerFacts.RunKeepsInv | kernel/threads.h:91-138 | it holds in every state of every run, for any number of threads and cores |
| SchedulerFacts.OnePlace | kernel/threads.h:91-138 | every thread is found at exactly one place: with one core, in one queue, a zombie, in the hands of a thread that took it from a queue, or an idle thread at rest |
| SchedulerFacts.IdleOnOwnCore | kernel/threads.h:112-122 | idle thread i runs on core i or rests and is in no queue |
| SchedulerFacts.StacksApart | kernel/context.S:39-83 | no two cores execute on one stack, and a core only switches to saved registers |
| SchedulerFacts.QueuedIsSaved | kernel/threads.cc:97-115 | a thread in a queue or about to be deleted has its registers saved and no core on its stack |
| SchedulerFacts.SemaphoreFacts | kernel/semaphore.h:18-73 | initial + ups = count + grants; a positive count means nobody waits; threads leave in the order they were queued; one grant per down |
| SchedulerFacts.NoGrantNoRun | kernel/semaphore.h:38-57 | a thread without its grant is queued or still on its way into the queue, and never runs on |
| SchedulerFacts.NoMissedSignal | kernel/condition.h:58-123 | a wait that read the epoch before a notifyAll, even if it was preempted before it got to block, is not in the queue once that notifyAll is over, and its handler, if still to come, sends it to the ready queue |
| SchedulerEffects.StopWakes | kernel/threads.cc:58-62 | a thread that stops becomes a zombie and wakes the reaper, who is last in the ready queue one step later |
| SchedulerEffects.StopAlone | kernel/threads.cc:58-62 | without a waiting reaper the zombie is kept, the epoch rises and the core runs on |
| SchedulerEffects.IdleStops | kernel/threads.cc:104-115 | an idle thread that stops only rests |
| SchedulerEffects.NotifyOneWakes | kernel/condition.h:104-130 | notifyOne takes the head of the queue, raises the epoch, and makes that thread ready |
| SchedulerEffects.NotifyAllWakes | kernel/condition.h:109-137 | notifyAll makes all queued threads ready, in the order of the queue, and leaves the queue empty and the lock free |
| SchedulerEffects.UpWakes | kernel/semaphore.h:60-73 | up hands its unit to the head of the queue, who is last in the ready queue one step later |
| SchedulerEffects.UpAlone | kernel/semaphore.h:60-66 | with nobody queued the count rises and nobody is woken |
| SchedulerEffects.DownSettles | kernel/semaphore.h:38-56 | the handler of down takes a unit and makes its thread ready, or queues it last when there is none |
| SchedulerEffects.WaitSettles | kernel/condition.h:73-94 | the handler of wait queues its thread last if nothing was notified since, else makes it ready |
| SchedulerEffects.ReadyInOrder | kernel/threads.cc:41-45 | threads enter the ready queue at its end, one at a time, and only its head is taken |
| SchedulerEffects.SpawnReadies | kernel/threads.h:191-199 | a new thread is ready and can be switched to |
| SchedulerEffects.ReapDeletes | kernel/threads.cc:33-39 | the oldest zombie goes and nothing else |
| SchedulerEffects.NobodyReady | kernel/threads.h:104-122 | with nobody ready yield and wait return, and stop and down make way for the idle thread of the core |
| SchedulerEffects.BlockSwitches | kernel/threads.h:91-138 | block, whatever it is called for: the head of the ready queue becomes active, registers are saved and loaded, and the action is carried out for the caller |
| SchedulerEffects.YieldSwitches | kernel/threads.cc:97-102 | when no other core acts in between, yield puts the thread at the end of the ready queue and runs its head |
| SchedulerEffects.NoChoice | kernel/threads.h:91-138 | inside block and the switch the next step of a core is determined by where it is |
| SchedulerEffects.Progress | kernel/threads.h:91-138 | in every reachable state a core can make a step unless an idle thread that stops finds nobody, or a handler waits for the lock of a thread inside notifyAll |
| SchedulerEffects.RunningOffers | kernel/semaphore.h:18-73 | which calls of a running thread can go ahead: a down takes a unit exactly if there is one, up and notify wait for nothing but a notifyAll |
| Reaper.StepKeeps | kernel/threads.cc:54-79 | every step keeps: what the reaper saw holds as long as nobody stopped since, and it is queued only while there are no zombies |
| Reaper.RRunKeepsInv | kernel/threads.cc:54-79 | in every state of every run |
| Reaper.NoZombieForgotten | kernel/threads.cc:54-79 | while there is a zombie the reaper does not sleep, and if it is on its way to sleep its handler makes it ready |
| SchedulerFrames.StepChanges | kernel/threads.h:91-138 | a step takes its core to the next stage of block and the switch, in the order of the code and with the same action, and leaves the other cores where they are; only calls on semaphores change semaphores, only calls on conditions, and stop, change conditions |
| Preemption.TickIsYield | kernel/pit.cc:138-148 | a timer interrupt, wherever it hits, preempts exactly a thread that is not idle and runs outside block and the switch, and is then a yield |
| Preemption.PStepKeepsInv | kernel/context.S:39-83 | steps and ticks in any order keep the flags right: set for the caller from the start of block and for the next thread before it becomes active, cleared only with interrupts off |
| Preemption.PRunKeepsInv | kernel/threads.h:91-138 | with ticks at any time every state of every run satisfies the invariant of the scheduler |
| ReusableBarrier.StepKeepsInv | kernel/barrier.h:50-61 | every step of sync keeps the invariant, for any number of threads and any limit |
| ReusableBarrier.RunKeepsInv | kernel/barrier.h:50-61 | in every state of every run |
| ReusableBarrier.Alone | kernel/barrier.h:50-61 | between a down and the up that follows a thread is alone: each update of count is exclusive |
| ReusableBarrier.GenerationsApart | kernel/barrier.h:50-61 | nobody passes before limit threads of its generation arrived, and nobody of the next is counted until all of them left |
| ReusableBarrier.ArrivalsByGeneration | kernel/barrier.h:50-61 | exactly limit threads arrive and leave per generation |
| ReusableBarrier.NeverStuck | kernel/barrier.h:50-61 | unless fewer than limit threads have come and all wait, some thread can go on |
| BarrierSemaphores.Simulates | kernel/semaphore.h:18-73 | every step of the scheduler on the blocking semaphores is no step, one or two steps of the barrier on their values: a handed-over unit is an up and a down |
| BarrierSemaphores.CRunKeepsInv | kernel/barrier.h:38-62 | over the blocking semaphores every run of sync stays in states of ReusableBarrier that satisfy its invariant |
| Barrier.RunKeepsInv | kernel/barrier.h:20-35 | every step of every run keeps the invariant |
| Barrier.NobodyEarly | kernel/barrier.h:20-35 | nobody leaves before all callers have come |
| Barrier.NobodyStuck | kernel/barrier.h:20-35 | after the releaser's notifyAll nobody is queued or will be, and everybody left can go on to the end |
| Barrier.NeverStuck | kernel/barrier.h:20-35 | as long as a caller is not done, somebody can take a step |
| BarrierConditions.Simulates | kernel/condition.h:58-139 | every step of the scheduler on the barrier's condition is the step of Barrier it stands for, or none: notifyAll wakes all at its beginning, a thread on its way into the queue keeps the epoch it read, the queue holds exactly the threads the barrier has queued |
| BarrierConditions.CRunKeepsInv | kernel/barrier.h:9-36 | over the scheduler's conditions every run of sync stays in states of Barrier that satisfy its invariant |
| BarrierConditions.SyncOverConditions | kernel/barrier.h:20-35 | in every such run nobody passes before all have come, and once the notifyAll is over the scheduler's queue holds no caller and a late handler makes its thread ready |
| SafeLock.RunKeepsInv | kernel/atomic.h:200-232 | the invariant holds in every state of every run whose unlocks are harmless, in whatever order locks are given up, with was shared between cores and read and written in separate steps |
| SafeLock.Exclusion | kernel/atomic.h:214-225 | at most one core has a lock, and whoever has one has interrupts disabled |
| SafeLock.FlagRestored | kernel/atomic.h:227-231 | after its outermost unlock a core's interrupt flag is what it was before its outermost lock, and until then interrupts stay disabled |
| SafeLock.UnlockOutOfOrder | kernel/atomic.h:227-231 | after any such run, giving up one of several locks keeps interrupts disabled exactly if it is not the one taken first, or they were disabled before |
| SafeLock.OutOfOrderExample | kernel/atomic.h:214-231 | a run from the initial state that takes two locks with interrupts on; unlock of the first would turn them on while the second is held |
| Queue.Queue.Add | kernel/queue.h:23-32 | the node is last, the others keep their order |
| Queue.Queue.Remove | kernel/queue.h:34-45 | takes the node added first, null iff the queue is empty |
| Queue.Queue.RemoveAll | kernel/queue.h:47-53 | empties the queue and hands out the whole chain in order |
| BlockIo.BlockIO.ReadSector | kernel/ide.h:31-33 | fills the buffer with one sector of the disk |
| BlockIo.Word32Bytes | kernel/ext2.cc:27-29 | byte i of a word is the i-th byte on the disk, the least significant one first |
| BlockIo.BlockIO.FindBlock | kernel/ext2.cc:16-63 | where a block is looked for, in 32 bits, for all four kinds; direct: the number times the block size; singly indirect: the four bytes of its entry times the block size |
| BlockIo.BlockIO.FindDoubly | kernel/ext2.cc:36-47 | two reads, the second of four bytes at the unscaled index |
| BlockIo.BlockIO.FindTrebly | kernel/ext2.cc:49-61 | three reads, the last two at unscaled indices |
| BlockIo.PlaceRead | kernel/ext2.cc:26-63 | every read on the way to a block of a file stays on the disk, and the square of the numbers per block does not wrap where it is used |
| IndirectBlocks.SamePlace | kernel/ext2.cc:16-47 | direct, singly indirect and the first doubly indirect block are looked for where the tree of block numbers has them |
| IndirectBlocks.SmallFilesRead | kernel/ext2.cc:9-63 | so a file of at most 13 + p blocks has the content that it was laid out with |
| IndirectBlocks.LargeFileMisread | kernel/ext2.cc:36-63 | for block sizes of 1, 2 and 4 KB and every larger size: a disk on which the file is laid out properly and a byte is read wrongly |
| IndirectBlocks.FilesRead | kernel/ext2.cc:9-63 | files of a size are read as laid out on all disks if and only if they have at most 13 + p blocks |
| IndirectBlocks.ByteOfBlock | kernel/ext2.cc:9-63 | byte j of block n of a file is byte j of the disk from the place of n on |
| BlockIo.BlockIO.FillCache | kernel/ext2.cc:14-31 | afterwards the cache holds the block asked for |
| BlockIo.BlockIO.ReadFileBlock | kernel/ext2.cc:9-33 | the block's bytes arrive whatever the cache held |
| BlockIo.BlockIO.ReadBlock | kernel/block_io.cc:22-27 | the same for a disk and for a file on it |
| BlockIo.BlockIO.Read | kernel/block_io.cc:6-33 | -1 beyond the end; else at least one byte unless there is none, and the bytes are those of the content at the offset |
| BlockIo.BlockIO.ReadAll | kernel/block_io.cc:35-47 | exactly the content from offset up to offset+n or the end, for a file through all levels down to the sectors |
| BlockIo.FileDescriptor.constructor | kernel/sys.cc:19 | a descriptor starts at offset 0 |
| BlockIo.FileDescriptor.Read | kernel/sys.cc:25-31 | the next bytes of the file, and the offset moves by their number; negative lengths count as unsigned ones, and the cache stays the old or a new array |
| BlockIo.FileDescriptor.ReadInTurn | kernel/sys.cc:25-31 | reads of any lengths one after the other, joined, give one consecutive piece of the file, and the offset moves by its length |
| BlockIo.FileDescriptor.Seek | kernel/sys.cc:33-35 | sets the offset and returns it, a negative one as unsigned |
| BlockIo.ReadsConcatenate | kernel/sys.cc:25-31 | pieces taken in turn from where the last one ended are one piece, also beyond the end |
| Ext2.CompareName | kernel/ext2.cc:262-274 | the character loop decides whether a name is followed by the end or a slash |
| Ext2.SearchBlock | kernel/ext2.cc:257-279 | stepping through the records of a block finds its first matching entry, and ends |
| Ext2.SearchDirectory | kernel/ext2.cc:255-280 | reading the blocks one by one finds the first match of the whole directory |
| Ext2.HitIsLookup | kernel/ext2.cc:262-274 | matching in place is looking up the first path component |
| Ext2.FollowPath | kernel/ext2.cc:249-282 | the jumps follow a path component by component, as the recursive walk does |
| Ext2.ReadLink | kernel/ext2.h:73-80 | gives the path a link holds, whether it is kept in the i-node or in a file |
| Ext2.Open | kernel/ext2.cc:220-306 | ends on every well-formed disk and returns what the recursive resolver returns with ten levels: no directory, no link, relative links from their own directory |
| Ext2.SearchCounted | kernel/ext2.cc:195-215 | find's countdown over the directory's size meets the same entries |
| Ext2.Find | kernel/ext2.cc:193-218 | the recursive walk, without following links, and panics on a component that is no directory |
| Ext2.OpenAgreesWithFind | kernel/ext2.cc:193-306 | on relative paths without a final link open gives a file exactly when find gives it and it is no directory |
| Ext2.LinksFollowed | kernel/ext2.cc:220-306 | a file is opened exactly when a chain of at most nine final links leads to it, each found from the directory of the one before; so cycles give nothing |
| PathLaws.AbsolutePath | kernel/ext2.cc:243-247 | a path with a leading slash is found from i-node 2, wherever the search begins |
| PathLaws.IntoDirectory | kernel/ext2.cc:262-274 | a name and a slash: the rest is found from the first entry of that name, if it is a directory, else nothing is |
| PathLaws.LastName | kernel/ext2.cc:284-297 | a last name opens its file but no directory; a link is followed from i-node 2 or from its own directory, with one link less to go |
| PathLaws.NoSuchName | kernel/ext2.cc:282 | a name without entry opens nothing |
| PathLaws.EmptyPath | kernel/ext2.cc:255-282 | the empty path and one with two leading slashes open nothing |
| PathLaws.DoubledSlash | kernel/ext2.cc:255-282 | nor does one with two slashes behind a name |
| PathLaws.BlockRoundTrip | kernel/ext2.cc:67-75 | records written byte by byte are listed as exactly their entries, in order |
| PathLaws.ShortOrLong | kernel/ext2.h:73-80 | links of less than 60 bytes are in the i-node, longer ones in a file |
| PathLaws.ShortLinkBytes | kernel/ext2.h:73-80 | a short link is the bytes of the block numbers, least significant first |
| ExecArgs.StrLen | kernel/libk.cc:4-8 | the length up to the NUL |
| ExecArgs.CountArgs | kernel/sys.cc:262-271 | the number of arguments, and the bytes of their strings with NULs modulo 2^32 |
| ExecArgs.Pack | kernel/sys.cc:229-239 | a write leaves the buffer exactly if the true size of the block is more than the buffer has; else the buffer starts with the offsets, a null and the strings |
| ExecArgs.LayOut | kernel/sys.cc:246-253 | the block ends above the top exactly if it does not fit with two words; else it is copied below the top, its pointers are relocated, argc and argv stand in front, and no other byte changes |
| ExecArgs.GrantHolds | kernel/heap.cc:140-189 | what malloc grants for the computed size holds the block exactly if the true size is below 2^32-3 |
| ExecArgs.NewBytes | kernel/heap.cc:243-247 | panics exactly if no available block fits; else one live block more, with as many bytes as its header says, and all contents as before |
| ExecArgs.DeleteBytes | kernel/heap.cc:249-255 | new and delete together leave the live blocks and their contents as they were |
| ExecArgs.Exec | kernel/sys.cc:219-271 | the exact condition for each way to end: bad header, no memory, overrun of the buffer that malloc gave, block above the top; otherwise the new program finds, at a 16-byte aligned stack pointer, the same argument list that the caller passed, below the top, and the heap has the live blocks it had |
| ExecArgs.MainParameters | t0.dir/sbin/crt0.S:4-9 | reading argc and argv as main does, word by word from the stack pointer, gives the list that was laid out |
| ExecArgs.HeapBelowStack | kernel/sys.cc:229-247 | with less heap than stack no block that the buffer holds ends above the top; the placement looks right exactly if the computed size is below 2^32-3, also when the sum wrapped |
| ExecArgs.SharedList | kernel/sys.cc:262-271 | n pointers to one string in memory are an argument list whose true size is n times the string, for all n |
| ExecArgs.SumWraps | kernel/sys.cc:229-271 | a list in 262148 bytes of memory whose true size is 2^32+131076 and whose computed size is 131076: the first string does not fit in whatever malloc grants for it |
| ExecArgs.RoundingWraps | kernel/heap.cc:143-146 | a list of true and computed size 2^32-3, for which malloc looks for four integers: the first string does not fit either |
| ExecArgs.PlacedBelow | kernel/sys.cc:246-247 | the stack pointer is always aligned; the block ends below the top exactly if it and two words fit, and at most 15 bytes are lost |
| ExecArgs.StringsFill | kernel/sys.cc:232-238 | the strings follow one another without gap or overlap from behind the pointers to the end of the block |
| ExecArgs.OffsetsGrow | kernel/sys.cc:232-238 | strings of different arguments are disjoint and behind the pointers |
| ExecArgs.ArgsUnique | kernel/sys.cc:262-271 | memory holds only one argument list at an address, so what the new program reads is what was passed |

## Left out

- PhysMem.Allocator.IncRef: ends the run instead of wrapping when a frame has 65535 references; the source wraps to zero, so its promises hold for fewer than 2^16 sharers only. incref and decref are single steps; the source drops its lock before raising the count, and finer interleavings do not keep the invariant.
- PhysMem.Allocator.DeallocFrame: addresses outside the managed range are not modelled; the source only prints a line for them.
- Vmm.Vmm.PageFault: faults and the other memory operations are single steps; two cores changing the same tables at once, the TLB, invlpg, and the accessed and dirty bits are not modelled. A table entry is a record of its frame number and flags instead of a 32-bit word. Kernel accesses are restricted to addresses the kernel does not map itself.
- Vmm.Vmm.Map: is used where no page is mapped, as by the page fault handler; on a mapped page the source overwrites the entry without giving up its reference.
- Vmm.Vmm.DestroyPd: the assertion that the directory is not the current one is not modelled.
- Machine.Machine.Exit: destroys the directory right after the process is ended; the source does it in the destructor, when the last reference to the process object goes. Descriptors, wait and exit status are not modelled.
- Machine.Machine.Exec: loading the program image is a sequence of stores by the process.
- Boot.KernelTables.GlobalInit: memory of less than 4 MB, for which the source writes through an absent table.
- Heap.Heap.constructor: arrays of fewer than eight integers, which have no room for one block between the sentinels.
- Heap.Heap.Free: a pointer that was never handed out is not modelled, and the user library, which returns silently where the kernel panics on a double free, shares this member. The lock, the safe-mode checks of sanity, and realloc are left out; on failure realloc frees the old block.
- Heap.Heap.Malloc: integers of the array are unbounded in the model; the array is shorter than 2^30 integers, so sizes never overflow.
- SchedulerSteps.StepKeepsInv: a section that runs under one lock is one step; cr3 and the task segment are not modelled. A timer interrupt is a yield here, which Preemption.TickIsYield justifies. The lock of a condition is only visible while notifyAll runs. Memory is sequentially consistent.
- ReusableBarrier.StepKeepsInv: down and up are single steps on semaphore values; BarrierSemaphores.Simulates carries this over to the blocking semaphores. The limit is at least one; fairness is not modelled.
- Barrier.RunKeepsInv: for at most as many callers as the barrier was made for, and at least one; with more, or with zero, count wraps below zero in the source. wait and notifyAll are steps of its own here; BarrierConditions.Simulates carries this over to the conditions of Scheduler.
- SafeLock.RunKeepsInv: unlock is called on a lock that is held, when that is harmless; what cores do after a harmful unlock is not followed further. ISL, SpinLock and the monitor/mwait hints are left out.
- BlockIo.BlockIO.FindBlock: a file whose reading leads to the very last block of a 4 GB disk, of which the device gives one byte less. A hole in a file reads block 0, as in the source.
- Ext2.SearchDirectory: reads the starting directory and the root through a node with an empty cache, where the source keeps theirs; BlockIo.BlockIO.ReadBlock shows that this makes no difference. Reading i-nodes from the i-node table and mounting are left out: i-nodes are a map from numbers. Unused entries and entries without name are excluded from well-formed images.
- ExecArgs.Pack: what memory looks like after a write beyond the buffer is not modelled; the run ends there. ExecArgs.LayOut likewise stops before it copies a block that would end above the top.
- ExecArgs.Exec: whether the ELF header is good is a parameter, and loading the program is left out; the new address space is an array of bytes. The bytes of the buffer are an array of their own, as long as the block that malloc gave: its writes stay inside that block, where Heap.Heap.Store allows them.
- Device drivers, the set-up of the interrupt and descriptor tables, and formatted output: none of them writes the state the properties above speak of (frame counters, page tables of processes, heap blocks, queues, file content); a disk sector is what the driver returns, and an interrupt is the step it calls.
- Futures and blocking locks: each is one semaphore and the calls on it; they rest on SchedulerFacts.SemaphoreFacts and NoGrantNoRun, but their own promises are not stated.
- Shared pointers: kernel objects live as long as something in the model names them, so that freeing one too early or never is not covered.
