# xv6 for RISC-V: a Dafny model and its proofs

This project models the parts of the xv6 kernel that keep data and machines safe, and two of its user programs, and
proves what they promise.

- **Storage.** The redo log with group commit (`Log.dfy`, `LogDevice.dfy`, `GroupCommit.dfy`), the block cache
  (`BufferCache.dfy`), block allocation, block maps and file contents (`Volume.dfy`, `FileSys.dfy`), what a write costs
  and logs (`Space.dfy`), and directory entries and link counts (`Links.dfy`, `LinkBalance.dfy`). A crash is a cut
  anywhere in the sequence of single-block writes.
- **Memory.** Sv39 page tables over the frame allocator (`PageTable.dfy`), user address spaces (`UserMemory.dfy`),
  copies between kernel and user (`CopyUser.dfy`), and the user-level allocator (`Umalloc.dfy`). The page-table format
  is that of section 4.4 of the RISC-V Privileged Architecture, version 20211203.
- **Concurrency.** sleep and wakeup for any conditions (`Wakeup.dfy`), sleep-locks over them (`SleepLock.dfy`), the
  scheduler's lock hand-off with interrupt handlers (`Scheduler.dfy`), pipes (`Pipe.dfy`) and the virtio disk driver
  with its device (`Virtio.dfy`, sections 2.6 and 5.2 of OASIS VIRTIO version 1.1). Each is a step system
  whose steps interleave freely; the results hold in every state of every run. What a call was asked for is read off the
  steps of the run, not off the state that they change.
- **User programs.** The language of the shell (`ShellGrammar.dfy`) and its parser (`Shell.dfy`), and the matcher of grep
  (`Grep.dfy`).

Code that works in place is a class or a method with loops, proved against a specification on values; protocols are
actions on a state, with an invariant that every action keeps and theorems over whole runs. `dafny verify
dfyconfig.toml` covers all files.

Where the code does not do what one would expect, the model follows the code and says exactly when the expectation
holds:

- `GroupCommit.CapacityIff`: the reservation of begin_op keeps log_write from panicking exactly when the log area has
  more than LOGSIZE blocks. mkfs makes it LOGSIZE. `GroupCommit.AbsorbIff`: since the capacity test precedes the
  absorption test, in a log of any size an operation is safe exactly while it has logged fewer than MAXOPBLOCKS blocks;
  after that even a block that is in the log can panic.
- `Links.OverflowIff`: link counts stay right exactly until an increment passes the largest `short`, and
  `Links.OverflowReached` leads from a new file system to such an increment.
- `LinkBalance.LeakIff`: a step keeps the balance between link counts and names exactly when it does not free a directory
  that still holds names. `LinkBalance.LeakReached` leads there from a new file system.
- `BufferCache.UniqueIff`: all buffers start as block 0 of device 0, so a key is unique exactly when it is another one.
- `BufferCache.RecycleIff`: recycling a buffer is invisible to readers exactly when it is clean.
- `FileSys.FileSystem.Writei`: when the source becomes unreadable part-way through a block, bytes beyond the returned
  count have been stored. `Space.PartialIff` says exactly when, and the predicate `Space.WriteExact`, which writei
  ensures, says exactly when a block is then changed and not logged. `Space.FaultUnlogged` is such a write.
- `Umalloc.RequestIff`: morecore asks sbrk for as many units as it records exactly up to requests of 2^31 - 32 bytes.
- `Pipe.GiveUpIff`: a writer that gives up strands a reader exactly when it has added bytes and a reader sleeps.
  `Pipe.StrandedReader` is a run that ends so. `Pipe.ReportedIff`: reads report all bytes they take exactly when no
  copyout fails; each failure loses one.
- `Scheduler.SchedChecks`: of the checks in sched only the lock count can fail, exactly when another lock is held.

## Model

| member | source | states |
|---|---|---|
| `RedoLog.HeadRoundTrip` | kernel/log.c:86-113 | read_head recovers exactly the block list that write_head stored |
| `RedoLog.SlotWriteInvisible` | kernel/log.c:178-190 | filling log slots under a clear header changes nothing that a recovery would produce |
| `RedoLog.InstallWriteInvisible` | kernel/log.c:68-83 | copying a slot home, once or again after a crash, changes nothing that a recovery would produce |
| `RedoLog.HeadWriteCommits` | kernel/log.c:99-113 | the one header write switches all listed blocks to their new contents at once |
| `RedoLog.RecoveryCrash` | kernel/log.c:116-123 | a recovery cut anywhere leaves the same durable file system, and a completed one leaves it in place with a clear log |
| `RedoLog.CommitCrash` | kernel/log.c:193-203 | a commit cut anywhere durably holds all old blocks up to the header write and all new ones from it on |
| `RedoLog.CrashSafety` | kernel/log.c:68-203 | after a commit cut anywhere, any number of cut recoveries and a complete one, every block outside the log is old, or every block is new |
| `LogDevice.FillHead` | kernel/log.c:102-113 | the loop of write_head stores the header that HeadRoundTrip reads back |
| `LogDevice.Log.WriteHead` | kernel/log.c:102-113 | one block write, of the encoded header |
| `LogDevice.Log.ReadHead` | kernel/log.c:86-97 | the in-memory list becomes the one on disk |
| `LogDevice.Log.WriteLog` | kernel/log.c:178-190 | the writes are the current buffers into the slots, in order, and nothing readers see changes |
| `LogDevice.Log.InstallTrans` | kernel/log.c:68-83 | the writes are the slots to their homes, in order, and every pin is dropped |
| `LogDevice.Log.RecoverFromLog` | kernel/log.c:116-123 | its writes are the ones RecoveryCrash is about; readers then see the durable file system |
| `LogDevice.Log.Commit` | kernel/log.c:193-203 | its writes are the ones CrashSafety is about; the disk ends up as readers saw it, with a clear log |
| `LogDevice.Log.LogWrite` | kernel/log.c:214-235 | the exact panic condition; otherwise the block is listed once and the listed blocks are the pinned ones |
| `LogDevice.Log.TryBeginOp` | kernel/log.c:126-143 | an operation begins exactly when no commit runs and its reservation fits |
| `LogDevice.Log.EndOp` | kernel/log.c:146-176 | the last operation out makes exactly the writes that CrashSafety is about, for everything its group logged; the others, and a panic, write nothing |
| `LogDevice.CommitTrace` | kernel/log.c:193-203 | the four phases of commit make up one sequence of writes |
| `LogDevice.CommittedImage` | kernel/log.c:193-203 | after the phases of commit, disk and readers agree on what readers saw before |
| `GroupCommit.Preserved` | kernel/log.c:126-235 | every interleaved step, crashes and recovery writes included, keeps reservation, history and disk contents consistent |
| `GroupCommit.CommitAlone` | kernel/log.c:126-176 | in every run a commit has no operation in progress, and logged plus reserved blocks fit LOGSIZE |
| `GroupCommit.CrashAtomicity` | kernel/log.c:68-235 | in every run, stopped anywhere and recovered, the disk holds the writes of a prefix of the history that the calls made, and that prefix is made of whole operations |
| `GroupCommit.SavedForever` | kernel/log.c:116-203 | what was durable once stays durable through all further runs and crashes |
| `GroupCommit.CommitIsDurable` | kernel/log.c:146-203 | when a commit is done, everything its group did is durable for good |
| `GroupCommit.QuietIsDurable` | kernel/log.c:146-176 | in every run, with no operation in progress and no commit or recovery running, the log is empty and all that the calls did is durable |
| `GroupCommit.ReadersSee` | kernel/log.c:214-235 | in every run, while no recovery or commit runs, each block reads as the last write of the history left it |
| `GroupCommit.QuietIsWhole` | kernel/log.c:126-176 | a history with nobody inside an operation consists of whole operations |
| `GroupCommit.NoPanic` | kernel/log.c:214-235 | with a log area above LOGSIZE, an operation with reservation left always finds room |
| `GroupCommit.CapacityIff` | kernel/log.c:126-143 | log_write never panics on reserved space if and only if the log area is larger than LOGSIZE |
| `GroupCommit.AbsorbedPanics` | kernel/log.c:214-231 | a run after which an operation panics by writing a block that is already logged |
| `GroupCommit.AbsorbIff` | kernel/log.c:214-231 | in every run an operation finds room, absorbed blocks included, if and only if it has logged fewer than MAXOPBLOCKS blocks |
| `BufferCache.RingDrop` | kernel/bio.c:126-129 | unlinking a buffer leaves a circular doubly linked list of the others |
| `BufferCache.RingPush` | kernel/bio.c:130-134 | linking it after the head gives a circular list again |
| `BufferCache.Cache.constructor` | kernel/bio.c:37-53 | a list of all buffers, the last one most recent, coherent with the disk |
| `BufferCache.Cache.Search` | kernel/bio.c:66-73 | finds a buffer of the block exactly when there is one |
| `BufferCache.Cache.Victim` | kernel/bio.c:76-88 | the unreferenced buffer whose last release is oldest, or none when all are referenced |
| `BufferCache.Cache.Bget` | kernel/bio.c:58-89 | reuse, recycle or panic, each exactly when it should; referenced and pinned buffers are never recycled; readers notice nothing |
| `BufferCache.Cache.Bread` | kernel/bio.c:92-103 | the buffer holds the logical contents of the block, from the cache or the disk, with one more reference; a block not in the cache takes the buffer released longest ago; it gives up exactly when bget does |
| `BufferCache.Cache.Bwrite` | kernel/bio.c:106-112 | the disk block becomes clean and readers notice nothing |
| `BufferCache.Cache.Brelse` | kernel/bio.c:116-137 | the last reference makes the buffer the most recent one; the list stays a permutation of all buffers |
| `BufferCache.Cache.Bpin` | kernel/bio.c:139-144 | adds a reference |
| `BufferCache.Cache.Bunpin` | kernel/bio.c:146-151 | drops a reference without moving the buffer |
| `BufferCache.RecycleIff` | kernel/bio.c:76-88 | after recycling, reads are right if and only if the victim was clean |
| `BufferCache.RecencyMoved` | kernel/bio.c:125-134 | moving the released buffer to the front keeps the list in order of last release |
| `BufferCache.UniqueIff` | kernel/bio.c:37-89 | a cache always has at most one buffer of a block if and only if that is not block 0 of device 0 |
| `FileSys.Scan` | kernel/fs.c:65-88 | the loops of balloc find the lowest free block or show that there is none |
| `FileSys.FileSystem.Balloc` | kernel/fs.c:65-88 | the lowest free block, zeroed and marked, or no change on a full volume |
| `FileSys.FileSystem.Bfree` | kernel/fs.c:91-105 | panics exactly on a free block, else clears its one bit |
| `FileSys.FileSystem.Bmap` | kernel/fs.c:382-421 | one owner is added for what was missing on the way to the block; mapped blocks, other slots and file contents stay; fails only on a full volume; every block it changes is logged, and nothing else but bitmap blocks |
| `FileSys.FileSystem.Writei` | kernel/fs.c:505-539 | the exact refusal condition; else the exact count, namely the last point it can stop at with a readable source and free blocks; the stored bytes, the new size, every block below it mapped; when all changed blocks are logged; and the bound on logged blocks |
| `Space.EndsOnce` | kernel/fs.c:515-529 | the count that writei returns is determined by the volume, the file and how far the source can be read |
| `Space.CompleteIff` | kernel/fs.c:515-529 | a write that is not refused is complete if and only if the source is readable and the missing slots do not outnumber the free blocks |
| `Space.PartialIff` | kernel/fs.c:522-525 | given free blocks, no byte beyond the returned count is stored if and only if the source ends at the end, at the start or at a block boundary |
| `Space.FaultUnlogged` | kernel/fs.c:522-525 | on one small volume, a write whose source faults after a byte changes a block that is not logged |
| `FileSys.WriteiFile` | kernel/fs.c:505-539 | on files: the written range is replaced, the rest and all other files are unchanged |
| `FileSys.ChunkFits` | kernel/file.c:155-158 | a chunk of filewrite, at any offset, logs at most MAXOPBLOCKS blocks |
| `FileSys.FileSystem.FileWrite` | kernel/file.c:149-176 | the chunks together act as one write of exactly the bytes that the source, the free blocks and the size limit allow; no operation exceeds MAXOPBLOCKS |
| `FileSys.FileWriteIff` | kernel/file.c:149-176 | all n bytes are written if and only if the write starts in the file, stays below the largest file, can read its source and finds free blocks for what is missing |
| `Space.RoomRest` | kernel/file.c:155-174 | after a prefix of a write, the rest fits exactly when the whole fitted before |
| `FileSys.FileWrittenTwice` | kernel/file.c:160-176 | two adjacent writes are one write |
| `FileSys.FileSystem.Readi` | kernel/fs.c:471-499 | returns exactly the file's bytes in range, fails exactly when the destination is too small, and allocates and logs nothing |
| `FileSys.WriteReadBack` | kernel/fs.c:471-539 | reading a range that was just written returns what was written |
| `FileSys.FileSystem.Itrunc` | kernel/fs.c:425-453 | frees exactly the blocks of this inode, never a free one, changes no other file, and logs exactly the bitmap blocks it changed and the inode's block |
| `Space.BlocksConserved` | kernel/fs.c:65-105 | free and owned data blocks are disjoint and their number is constant |
| `FileSys.OwnersUnique` | kernel/fs.c:382-453 | who owns which block is determined by the volume |
| `Volume.SlotsDistinct` | kernel/fs.c:382-421 | no block is in two slots of any inodes |
| `Volume.Layout` | kernel/fs.h:44-51 | bitmap bits and inodes are where counting them off from the start of their areas puts them, and the areas do not overlap |
| `Volume.WrittenDense` | kernel/fs.c:505-539 | extending the size to the end of what was written keeps every block below it mapped |
| `Links.DirLookup` | kernel/fs.c:551-575 | the first entry of that name, or none exactly when there is none |
| `Links.DirLink` | kernel/fs.c:579-606 | refuses exactly a present name or an entry that cannot be stored, else fills the first free slot or appends |
| `Links.IsDirEmpty` | kernel/sysfile.c:173-186 | true exactly when all entries after the first two are free |
| `Links.Preserved` | kernel/sysfile.c:123-302 | every step of create, link, unlink and iput keeps each link count at least the entries naming the inode plus the links in transit |
| `Links.LinksCover` | kernel/sysfile.c:123-302 | in every run link counts cover all names, named inodes exist, and the root stays |
| `Links.FreedIsUnnamed` | kernel/fs.c:336-362 | in every run iput frees only inodes that no entry names |
| `Links.UnlinkHasLink` | kernel/sysfile.c:188-243 | in every run the check for a link count below one in sys_unlink does not fail |
| `Links.OverflowIff` | kernel/sysfile.c:139-147 | a step keeps the counts right if and only if its increment fits a short |
| `Links.OverflowReached` | kernel/sysfile.c:123-171 | a run of mkdir, create and link from a new file system to a link count that the next link makes negative |
| `LinkBalance.ExcessKept` | kernel/sysfile.c:123-302 | no step of create, link, unlink or iput moves the balance between the link count of any inode and its names and links in transit, but the freeing of a directory that holds names |
| `LinkBalance.LeakIff` | kernel/fs.c:336-362 | a step keeps every balance if and only if it is not such a freeing |
| `LinkBalance.LinksExact` | kernel/sysfile.c:123-302 | in every run without one, each link count is exactly the names plus the links in transit |
| `LinkBalance.UnnamedIsFreeable` | kernel/fs.c:336-362 | in every such run from a new file system, an inode without names and links in transit has link count 0, so that iput can free it |
| `LinkBalance.LeakReached` | kernel/sysfile.c:188-302 | a run from a new file system to a file that no name leads to and that keeps its link |
| `LinkBalance.NamesStep` | kernel/sysfile.c:123-302 | every step adds or removes exactly the name it was called with, and names stay unique in each directory |
| `LinkBalance.CreatedAsAsked` | kernel/sysfile.c:245-302 | in every run an inode has the kind, and goes to the directory, that create was called with |
| `PageTable.Memory.constructor` | kernel/kalloc.c:26-40 | freerange hands over each page once, so that the last page is the first to be allocated |
| `PageTable.Memory.KAlloc` | kernel/kalloc.c:68-82 | takes the head of the free list, or returns 0 when it is empty |
| `PageTable.Memory.KFree` | kernel/kalloc.c:46-64 | panics exactly on an address that is not that of a page of the allocator; else the frame leaves its use and becomes the head of the free list |
| `PageTable.FramesConserved` | kernel/kalloc.c:46-82 | frames that leave the free list are counted by new tables of the tree and new data pages |
| `PageTable.Memory.Walk` | kernel/vm.c:85-104 | arrives at the page's entry of the flat map; allocating tables changes no mapping, conserves frames and touches no other tree |
| `PageTable.Grow` | kernel/vm.c:96-101 | hanging an empty table into the tree changes no mapping |
| `PageTable.PutAt` | kernel/vm.c:164-164 | writing an entry changes the flat map at that one page |
| `PageTable.PathUnique` | kernel/vm.c:73-84 | pages below MAXVA have different positions in the tree |
| `UserMemory.MapPages` | kernel/vm.c:143-171 | inserts consecutive pages into the flat map, taking exactly the missing tables; panics exactly on a bad argument, at the end of the address space or at a mapped page; fails only when the free frames are too few for those tables |
| `UserMemory.UvmUnmap` | kernel/vm.c:177-199 | done exactly when all pages of the range are mapped, which it then removes with their frames; panics at the first unmapped page, never for a non-leaf |
| `UserMemory.DenseIsSmall` | kernel/vm.c:232-256 | dense user memory cannot exceed physical memory |
| `UserMemory.UvmAlloc` | kernel/vm.c:232-256 | for every size asked: never a panic; new zeroed pages with frames of their own exactly when the free frames suffice for them and the missing tables, else all mappings and data as before |
| `UserMemory.UvmDealloc` | kernel/vm.c:262-273 | exactly the pages above the new size are unmapped and freed; the int page count never truncates |
| `UserMemory.GrowProc` | kernel/proc.c:279-295 | for every int: memory grows exactly when the free frames suffice and else stays as it was, shrinks by exactly the pages above the new size, and stays dense |
| `UserMemory.UvmCopy` | kernel/vm.c:312-340 | never a panic; copies under the same flags in other frames exactly when the free frames suffice, else the child's old mappings; the parent is untouched |
| `UserMemory.FreeWalk` | kernel/vm.c:278-294 | panics exactly when a page is still mapped; else every table of the tree is freed exactly once, and nothing else |
| `UserMemory.UvmFree` | kernel/vm.c:298-304 | the free list gains exactly the tables and user frames of the address space |
| `CopyUser.WalkAddr` | kernel/vm.c:108-125 | the frame exactly of valid user pages |
| `CopyUser.CopyIn` | kernel/vm.c:388-408 | succeeds exactly when every byte is readable; the bytes are those user code sees |
| `CopyUser.CopyOut` | kernel/vm.c:358-383 | succeeds exactly when every byte is writable; user code then sees those bytes changed and no other |
| `CopyUser.CopyInStr` | kernel/vm.c:414-451 | succeeds exactly when a NUL comes within the limit, with the string before the first NUL |
| `CopyUser.CopyRoundTrip` | kernel/vm.c:358-408 | copyin returns what copyout wrote |
| `Umalloc.Allocator.FreeBlock` | user/umalloc.c:24-44 | the search terminates at the block's place; the list stays circular, ascending and fully coalesced, and the units of the block become free |
| `Umalloc.InsertOrdered` | user/umalloc.c:33-43 | joining with the neighbours that touch keeps the list ascending with gaps |
| `Umalloc.InsertUnits` | user/umalloc.c:33-43 | the list gains exactly the units of the freed block |
| `Umalloc.SearchStep` | user/umalloc.c:30-32 | the loop of free stops exactly at the block below, across the wrap point too |
| `Umalloc.Allocator.MoreCore` | user/umalloc.c:46-61 | the units of sbrk join the list, and some block is then large enough |
| `Umalloc.Allocator.Malloc` | user/umalloc.c:63-90 | the block has room for the bytes asked for and not a unit more; it is off the end of the first large enough one after freep, which moves there; sbrk is called at most once and only when there is none; fails exactly when sbrk does |
| `Umalloc.MallocConserves` | user/umalloc.c:63-90 | the block is made of free units, and no other unit changes hands |
| `Umalloc.CoreConserves` | user/umalloc.c:46-61 | the units of sbrk are added, all free, and no other changes |
| `Umalloc.MallocFreeRoundTrip` | user/umalloc.c:24-90 | free undoes malloc: same list, same blocks, same owners |
| `Umalloc.RequestIff` | user/umalloc.c:46-61 | sbrk is asked for what the header records if and only if the request is at most 2^31 - 32 bytes |
| `Umalloc.RequestTruncated` | user/umalloc.c:46-61 | a request near 4 GiB asks sbrk for 16 bytes |
| `Wakeup.Preserved` | kernel/proc.c:567-612 | every step of sleep, wakeup and kill, and every change of the shared state under the lock, keeps the invariant |
| `Wakeup.NoLostWakeup` | kernel/proc.c:567-612 | in every run, for any conditions: nobody sleeps on a channel whose condition holds unless its waker still holds the lock and is yet to come |
| `Wakeup.SleepReturnsHeld` | kernel/proc.c:567-593 | in every run a caller of sleep runs again only as the holder of the lock, and stays inside until it releases it |
| `Wakeup.DisciplineIff` | kernel/proc.c:567-612 | releasing the lock keeps that if and only if nobody is left asleep on a channel whose condition holds |
| `SleepLock.Preserved` | kernel/proc.c:567-612 | every step of acquiresleep, releasesleep, sleep, wakeup and kill keeps the invariant |
| `SleepLock.NoLostWakeup` | kernel/sleeplock.c:21-41 | in every run nobody sleeps on a free lock; a sleeper has an owner to wait for or a waker coming |
| `SleepLock.WakeupComplete` | kernel/proc.c:598-612 | in every run a finished wakeup leaves nobody asleep |
| `SleepLock.MutualExclusion` | kernel/sleeplock.c:21-55 | in every run at most one process owns the lock, and holdingsleep is right about who |
| `SleepLock.StagesInOrder` | kernel/sleeplock.c:21-41 | in every run acquiresleep ends only by owning the lock, in the step that finds it free, and releasesleep gives up only an owned lock |
| `SleepLock.HolderMoves` | kernel/proc.c:567-612 | in every run the holder of the inner spinlock can move, or waits for a process that can |
| `Scheduler.Preserved` | kernel/proc.c:464-539 | every step of every CPU keeps the invariant, those of interrupt handlers in a process and in the scheduler included |
| `Scheduler.OneRunner` | kernel/proc.c:464-503 | in every run a RUNNING process is the process of exactly one CPU |
| `Scheduler.StacksDisjoint` | kernel/proc.c:464-539 | in every run no two CPUs are on one kernel stack |
| `Scheduler.InterruptsOff` | kernel/spinlock.c:21-109 | in every run interrupts are off where a spinlock is held, and noff counts the locks held |
| `Scheduler.FreedIsOff` | kernel/proc.c:410-455 | in every run wait frees a zombie, and a scheduler starts a process, only when no CPU is on its stack |
| `Scheduler.SchedChecks` | kernel/proc.c:510-528 | in every run the checks of sched hold, but for the lock count exactly when another lock is held |
| `Scheduler.StateChanges` | kernel/proc.c:464-612 | in every run a process's state changes only under its lock and along the edges of its life; only the process itself, on its stack, stops running |
| `Scheduler.LeftAsAsked` | kernel/proc.c:531-593 | in every run a process that has left a CPU is in the state its yield, sleep or exit asked for, until the scheduler lets go of it |
| `Scheduler.IntrAsSet` | kernel/proc.c:504-528 | in every run interrupts, with no spinlock held, are as the process itself last set them, on whatever CPU it has moved to since |
| `Virtio.AllocDesc` | kernel/virtio_disk.c:156-166 | takes the lowest free descriptor |
| `Virtio.Alloc3Desc` | kernel/virtio_disk.c:201-213 | three distinct descriptors, or the free list as it was |
| `Virtio.FreeChain` | kernel/virtio_disk.c:185-197 | follows the links and frees the three descriptors, none of them free before |
| `Virtio.Preserved` | kernel/virtio_disk.c:215-327 | every step of driver, device and interrupt handler keeps the invariant |
| `Virtio.Partition` | kernel/virtio_disk.c:156-213 | in every run the descriptors are the free ones and at most two disjoint chains of three |
| `Virtio.NoOverwrite` | kernel/virtio_disk.c:266-274 | in every run the slot written next holds no head still to be read, also across the wrap of the 16-bit index |
| `Virtio.RightBuffer` | kernel/virtio_disk.c:294-327 | in every run an interrupt completes exactly a buffer that was submitted and whose request has been carried out once since |
| `Virtio.RightTransfer` | kernel/virtio_disk.c:239-264 | in every run the device carries out a request as virtio_disk_rw was called with it: its block, its buffer, its direction, the first time, and nothing else |
| `Virtio.ReturnsServed` | kernel/virtio_disk.c:215-291 | in every run virtio_disk_rw returns when its request has been carried out exactly once; after a read the buffer holds what the disk held then |
| `Virtio.NothingLost` | kernel/virtio_disk.c:156-213 | in every run each call in progress has three descriptors and all others are free |
| `Virtio.WrapSlot` | kernel/virtio_disk.c:266-271 | ring slots do not move when the index wraps |
| `Pipe.FirstInFirstOut` | kernel/pipe.c:76-130 | in every run, killed writers included, bytes out followed by bytes buffered are the bytes that the writes supplied, at most PIPESIZE buffered, across the wrap of the counters |
| `Pipe.NobodyStranded` | kernel/pipe.c:76-130 | with the lock free, a sleeping reader means an empty pipe and a writer left, a sleeping writer a full one and a reader left |
| `Pipe.GiveUpIff` | kernel/pipe.c:83-87 | a step keeps that if and only if it is not a writer giving up over a sleeping reader |
| `Pipe.StrandedReader` | kernel/pipe.c:83-87 | a run that ends with a reader asleep on a pipe that is neither empty nor locked |
| `Pipe.ReportedIff` | kernel/pipe.c:106-130 | in every run the bytes taken out are those that reads report plus one for each copyout that failed |
| `Pipe.ReadReturns` | kernel/pipe.c:105-130 | in every run a read reports the bytes it copied out, which are all it was asked for unless its own copyout failed or the pipe is empty |
| `Pipe.WriteMoves` | kernel/pipe.c:76-103 | in every run a write has put in exactly the bytes it was asked for less those it still has to go |
| `Pipe.Preserved` | kernel/pipe.c:58-130 | every step of readers, writers, close and kill keeps the invariant |
| `ShellGrammar.SequenceTrail` | user/sh.c:328-343 | trailing spaces change nothing about what a line stands for |
| `ShellGrammar.SequenceSeen` | user/sh.c:345-447 | whatever a stretch of text stands for is made of exactly its words and operators, with its parentheses balanced |
| `ShellGrammar.LineHolds` | user/sh.c:328-343 | the command of a whole line has every word of the line, nothing else, and one node for every operator character |
| `Shell.GetToken` | user/sh.c:266-309 | the end, a symbol, or a whole word, with the spaces around it |
| `Shell.Peek` | user/sh.c:311-321 | moves to the first character that is not a space and says whether it is one of those asked for |
| `Shell.ParseRedirs` | user/sh.c:375-398 | takes all redirections that come next, in every reading of the text; fails only where there is no reading |
| `Shell.ParseArgs` | user/sh.c:426-447 | the one simple command that can be read here, or a panic exactly when there is none: no file, a parenthesis, or ten words |
| `Shell.ParseBlock` | user/sh.c:400-414 | the one line in parentheses with its redirections, or a panic exactly when there is none |
| `Shell.ParseExec` | user/sh.c:416-447 | the one command, of either kind, that ends where a command can end |
| `Shell.ParsePipe` | user/sh.c:362-373 | the one pipeline that ends where a pipeline can end; the bar associates to the right |
| `Shell.ParseLine` | user/sh.c:345-360 | the one line that ends where a line can end; the mutual recursion terminates on every line |
| `Shell.ParseAll` | user/sh.c:328-340 | the parser accepts exactly the lines of the grammar, and what it returns is their only reading |
| `Shell.NulTerminate` | user/sh.c:450-493 | a NUL at the end of every recorded word, and no other change |
| `Shell.WordsCut` | user/sh.c:450-493 | every word, read as a C string, is its text although all terminators share the buffer |
| `Shell.ParseCmd` | user/sh.c:328-343 | the only reading of the line in the buffer, each of its words a C string of its own there; a syntax error leaves the buffer alone |
| `Grep.Match` | user/grep.c:72-82 | true exactly when some position, or only the start after a caret, satisfies the declarative meaning |
| `Grep.MatchHere` | user/grep.c:85-96 | true exactly when cut points divide a stretch of the text from here on among the tokens |
| `Grep.MatchStar` | user/grep.c:99-106 | true exactly when some number of fitting characters leads to a match of the rest |
| `Grep.MatchesStep` | user/grep.c:85-96 | the declarative meaning, one token at a time |

## Left out

- Threads, signals, console interrupts, message queues and the system calls added for them.
- Hardware access: UART, PLIC, traps, boot code, virtio_disk_init; swtch is one step.
- mkfs beyond its layout constants; the initial volume is taken to be dense.
- Path parsing, exec's loading of programs, console line editing: easier than what is modelled.
- The byte layout of inodes on disk, and the inode cache: inodes are a map from number to addresses and size.
- Name truncation to 14 characters: directory names are compared as they are stored.
- Reference counts of in-memory inodes: `Links` lets iput free an inode whenever its link count is zero, which allows
  more runs than the code does.
- The bound of itrunc on logged blocks, which does not hold for volumes with several bitmap blocks.
- The number of entries that fit in a directory and the number of inodes, which `Links` does not bound.
- Memory order: stores are seen in program order.
- Fairness and liveness beyond the progress stated by `SleepLock.HolderMoves`.
- The kernel's own page table and device mappings.
- Read and write permission bits other than those the copies test, and the accessed and dirty bits.
- The contents of the free pages, which link the free list; it is a sequence here.
- BufferCache.Cache.Brelse: takes the sleep-lock of the buffer as held; the lock is `SleepLock`.
- LogDevice.Log.LogWrite: the buffer cache below it neither fills up nor evicts; `BufferCache` shows when that is safe.
- PageTable.Memory.KFree: asks that the page is not free already, which the source does not detect.
- Umalloc.Allocator.MoreCore: asks for at most 2^31 - 32 bytes, as malloc does below.
- FileSys.FileSystem.FileWrite: takes the offset plus the byte count to be below 2^32, which the largest file implies.
- Umalloc.Allocator.Malloc: asks for at most 2^31 - 32 bytes, or for a block that the list holds; beyond that
  `Umalloc.RequestIff` shows what goes wrong.
- LinkBalance.UnnamedIsFreeable: for runs that free no directory with names in it, which `LinkBalance.LeakIff` shows to
  be needed.
- Pipe.NobodyStranded: for runs in which no writer gives up over a sleeping reader, which `Pipe.GiveUpIff` shows to be needed.
