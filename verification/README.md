# xv6-riscv: what the kernel keeps

A Dafny model of the parts of this kernel whose correctness is a matter of
invariants: the write-ahead log over the buffer cache, the file system's blocks,
files, directories and links, page tables and physical memory, the life of a
process and sleep/wakeup, the user-level allocator, the disk driver's virtqueue
and pipes. The project file is `dfyconfig.toml`.

Code that updates state in place is a class whose methods follow the C function
by function, loop by loop; code that several CPUs run at once is a state machine
whose steps are taken in any order, with lemmas over every run.

## The parts

**Log and cache.** `TxStore` says what the log is for, without a disk: operations
write blocks, what they wrote becomes durable in batches taken when no operation
is half done, and a crash falls back to the last batch. `LogMachine` is log.c over
bio.c as a machine: any number of threads, each taking one step on a buffer at a
time, the log thread's writes one by one, and power loss at any point, also within
a block write (512-byte sectors are written whole). `LogProof` and
`LogCommitProof` prove that every run is a history of `TxStore` (`RunRefines`) and
that log.c's own panics are out of reach, and `BufferLeft` says when bget finds no
buffer. `LogProgress` proves that a commit comes to its end, and that all that was written
is durable then; `LogCalls` that operations and commits can be carried out, and what they
have done in the end. `Bcache` and `Log` are the same two files as sequential code, down to the linked
list and the header's bytes; every disk state that commit and recovery go through
is shown to recover to one of the two right contents.

**Blocks and files.** `FsLayout` and `Ownership` define which inode slot owns each
disk block; `Fs` proves that balloc, bfree, bmap, itrunc, iupdate and iput keep it and
pass every block that they change to log_write,
`Demand` counts the blocks that an operation needs against those that are free, and
`FileIo` proves that readi, writei and filewrite are slicing and splicing of a byte
sequence, up to where the free blocks run out. `Mkfs` proves that the parts of the host
tool keep the invariant, and `Boot` that its main makes an image in which the kernel
finds every file, name and link count as it should be.
`Directory` has directories as maps from names, `DirFile` the same over bytes
on disk, `Links` the link counts, and `LinkLimit` what 16 bits hold of them.

**Memory.** `PageTable` and `Vm` prove that three-level page tables are a flat map
from page numbers to entries, with every physical page in exactly one use.
`UserMemory` gives the bytes a process sees, `Teardown` frees an address space,
`ProcMemory` has what a process can ask of its own, and `Argv` and `Exec` replace one
by a program's image. `Process` puts them together: allocproc, freeproc, kfork and
kexec with the trapframe pages, and a whole life of a process after which every page
is in the use it had.

**Processes.** `Sleep` is the machine of sleep, wakeup and the scheduler, for any
channels and conditions, and `SleepLock` puts sleep-locks on top of it; `ProcTree` is
the machine of fork, exit, wait and reparenting. Their lemmas are over every interleaving;
`SleepCalls`, `SleepLockCalls` and `ProcCalls` say in full what each call has done when it
returns or sleeps, with no steps in the statement.

**Rings and heap.** `Virtio` is the split virtqueue with the device as a second
party (sections 2.6 and 5.2 of VirtIO 1.1), `Pipe` the pipe's ring, `Umalloc` the
K&R allocator. `Base` has what the others share.

## Where the plain statement is false

Each of these is kept as the code has it. The first member named gives the exact
condition, in terms of what is known before the call; the one in brackets is a run or a
state in which the statement fails.

- log_write tests for a full log before it looks for the block, so a repeated
  write of a logged block to a full log panics although it needs no room
  (`Log.Log.LogWrite`: panic iff the log is full or no operation is under way)
  [`Log.FullLogRepeat`].
- NBUF equals LOGBLOCKS. With all of them pinned, commit finds no buffer for the
  log block: it panics iff the transaction has NBUF blocks (`Log.Log.Commit`,
  `Log.BufferForLog`) [`Log.FullLogCommit`].
- All buffers start out as block 0 of device 0. After binit there is one buffer per
  block of a device iff the device is not 0 (`Bcache.Cache.constructor`); all later
  states keep this for every other device.
- When copyin fails inside a block, writei drops the buffer without logging it,
  though part of it may have changed: iff there are blocks enough up to the fault and
  it is strictly inside a block, after at least one byte (`FileIo.Writei`)
  [`Boot.LeakyWrite`].
- readi calls bmap, so reading a hole allocates a block, and it does not call
  iupdate. In an operation nothing changes iff every slot that it looks up is filled or
  no block is free; the inode on disk is out of date afterwards iff one of the inode's
  own slots was empty and there was a free block (`FileIo.Readi`) [`Boot.HoleRead`].
- fileread calls readi outside of any operation. It then panics in log_write iff no other
  process has one under way, a slot that it looks up is empty and a block is free
  (`FileIo.Readi`) [`Boot.HoleReadOutside`].
- dirlookup and dirlink panic when they cannot read an entry: iff the entries up to the one
  that they stop at come to more empty slots than there are blocks for, or to any
  outside of an operation (`DirFile.Dirlookup`, `DirFile.FindSlot`, `DirFile.Dirlink`).
- mkfs adds a block to the root directory's size even when it is a multiple of
  the block size: there is then a hole, and only then (`Mkfs.Image.FixRoot`); for a whole
  image, iff the number of the root's entries is a multiple of 64 (`Boot.MakeFs`)
  [`Boot.FullRoot`]. These are the holes of the three items before.
- vmfault tests one page table and maps in the process's own. They are the same
  in every call but kexec's copyout to a new image, where no fault can happen
  (`Exec.PushOne`).
- uvmalloc's result for an empty space is also its error value: a program whose first
  header is empty and at address 0 does not start (`Exec.Kexec`)
  [`Process.EmptyFirst`].
- loadseg takes the size of a segment as a uint: of a header that gives 2^32 bytes or more
  it loads as many as the low 32 bits say, and no others (`Exec.LoadOne`)
  [`Exec.CutHeader`].
- growproc by a negative amount larger than the size wraps around to a large
  size, and then changes nothing (`ProcMemory.Growproc`) [`Process.ShrinkBelowZero`].
- create and link do not look whether the directory is still linked. The link counts
  are right afterwards iff it is (`Links.LinkRight`, `Links.CreateFileRight`,
  `Links.CreateDirRight`) [`Links.OrphanCounts`]. In one that was removed, the count of
  the file is wrong; for a new directory it is the count of the inode that the removed
  directory's ".." names, because the new link brings that entry back to life.
- nlink is a short that nothing keeps from running over: one more link leaves the
  counts right iff there were fewer than 32767 (`Links.LinkStored`,
  `Links.CreateDirStored`) [`LinkLimit.LinkOverflows`]. sys_unlink panics iff the count of
  the inode that the name is for is not positive (`Links.Files.Unlink`).
- A killed pipe writer returns without waking readers. A reader is left asleep over
  bytes iff one was asleep, the pipe was open for reading, and the writer is killed
  after a byte of this turn, by the time the pipe is full and before the source faults
  or the bytes are all written (`Pipe.Pipe.WriteTurn`) [`Pipe.KilledWriter`].
- morecore passes a byte count to an int. It arrives unchanged iff the request is
  at most 0x7fffffe0 bytes (`Umalloc.RequestFits`) [`Umalloc.RequestWraps`].

## Model

| member | source | states |
|---|---|---|
| `LogFormat.HeaderRoundTrip` | kernel/log.c:87-115 | a header written by write_head reads back as the same list of block numbers |
| `LogFormat.TornHeader` | kernel/log.c:35-38 | a header write cut short by power loss leaves the old list or the new one, because the header lies in one sector |
| `LogFormat.InstallAt` | kernel/log.c:66-84 | installing the first k log blocks gives each listed block its log block's contents and leaves every other block |
| `LogFormat.RecoveredAt` | kernel/log.c:117-124 | what recovery leaves in each block: the log block if the header lists it, else what was there |
| `LogFormat.RecoveredAgree` | kernel/log.c:117-124 | two disks with the same header, the same logged contents and the same blocks outside it recover to the same contents |
| `LogFormat.RecoveredInstalled` | kernel/log.c:66-84 | recovery does nothing to a disk whose logged blocks are home |
| `LogFormat.EraseHeader` | kernel/log.c:194-204 | erasing the header loses nothing once every logged block is home |
| `LogProof.AbsorbOk` | kernel/log.c:226-234 | absorption keeps the list of logged blocks free of repeats and within the log |
| `LogProof.BeginOpKeeps` | kernel/log.c:127-143 | an operation that begin_op admits keeps the reservation: logged blocks plus the budgets of all operations fit the log |
| `LogProof.ModifyKeeps` | kernel/log.c:206-214 | filling a locked buffer within an operation is a write of the store |
| `LogProof.LogWriteKeeps` | kernel/log.c:215-236 | log_write of a block within an operation's budget, or of one it has logged while there is room, never panics, pins the block once, and changes nothing anyone reads |
| `LogProof.EndOpKeeps` | kernel/log.c:147-176 | end_op never panics and ends exactly that operation of the store; if it is the last one and there is something in the log, a committer is left behind |
| `LogProof.OneBufferKeeps` | kernel/bio.c:57-136 | taking, filling, unlocking and releasing a cached buffer keep every block's contents |
| `LogProof.RecycleKeeps` | kernel/bio.c:74-86 | recycling an unused buffer keeps every block's contents |
| `LogProof.VictimClean` | kernel/bio.c:74-86 | a buffer bget may recycle is not in the log and holds nothing the disk does not |
| `LogProof.NoCommitInOp` | kernel/log.c:147-176 | while an operation is under way no one commits or recovers and the header on disk is empty |
| `LogCommitProof.LogCopyKeeps` | kernel/log.c:179-192 | write_log's copy takes exactly the last contents of the logged block, seen by no reader |
| `LogCommitProof.LogPutKeeps` | kernel/log.c:179-192 | a log block on disk changes nothing that recovery would restore |
| `LogCommitProof.HeadPutKeeps` | kernel/log.c:103-115 | the header write is the commit point: all finished operations' writes become durable at once |
| `LogCommitProof.HeadDurable` | kernel/log.c:194-204 | once the full header is on disk, recovery restores exactly what readers see |
| `LogCommitProof.HomeCopySame` | kernel/log.c:66-84 | during a commit the pinned buffer already holds what its log block holds |
| `LogCommitProof.HomePutKeeps` | kernel/log.c:66-84 | writing a block home and unpinning it changes nothing durable, and the buffer is clean |
| `LogCommitProof.ClearPutKeeps` | kernel/log.c:194-204 | erasing the header after installing changes nothing durable |
| `LogCommitProof.FinishedKeeps` | kernel/log.c:147-176 | when the log thread is done operations may begin again, and cache, disk and durable contents agree |
| `LogCommitProof.ReadHeadKeeps` | kernel/log.c:87-98 | reading the header at boot changes nothing, and what is installed next is what it lists |
| `LogCommitProof.TornData` | kernel/log.c:66-84 | a torn write of a log block or of a home block changes nothing recovery would restore |
| `LogCommitProof.TornErase` | kernel/log.c:194-204 | a torn erasing header write recovers to the same contents as no write and as the whole write |
| `LogCommitProof.TornCommit` | kernel/log.c:103-115 | a torn committing header write loses the transaction as a whole or commits it as a whole |
| `LogCommitProof.TornWriteKeeps` | kernel/log.c:179-204 | power loss within any block write is a crash of the store, with or without the commit before it, and only the committing header write may commit |
| `LogCommitProof.StepSimulates` | kernel/log.c:127-236 | every step of every thread is a step of the transactional store and keeps the invariant |
| `LogCommitProof.RunRefines` | kernel/log.c:66-236 | every run, with any interleaving and any power losses, is a history of the transactional store whose events match the steps, and no panic of log.c is reached |
| `LogCommitProof.QuietHistory` | kernel/log.c:117-124 | a store with nothing pending and no operation begun stays as it is, whatever crashes and commits happen |
| `LogCommitProof.RecoveryRestores` | kernel/log.c:117-124 | after power loss at any moment, and any number of further losses during recovery, what readers see is what was durable at the first |
| `LogCommitProof.RestIsDurable` | kernel/log.c:147-176 | in every state with no operation under way and no log thread the log is empty, all that was ever written is durable, and a new operation need not wait |
| `LogCommitProof.EndedSurvives` | kernel/log.c:147-204 | after any run that comes to rest, what its operations wrote is what readers find after a power loss, and any number of further ones |
| `LogProgress.Nearer` | kernel/log.c:66-204 | every move of the log thread is one of those that it has left, by where it stands and how many blocks are in the log; after the last one it is gone |
| `LogProgress.Undisturbed` | kernel/log.c:66-204 | no step of another thread but a power loss changes the log or moves the log thread |
| `LogProgress.CommitEnds` | kernel/log.c:147-204 | in any run without power loss, whatever other threads do, once the log thread has made those moves the system has come to rest with what readers saw at the start on disk |
| `LogCalls.Read` | kernel/bio.c:91-103 | bread, by a thread that finds the buffer unlocked or one to recycle: it has the buffer with the block's latest contents, and no buffer in use has changed |
| `LogCalls.Released` | kernel/bio.c:115-136 | brelse: the buffer is unlocked with one user fewer, and nothing else has changed |
| `LogCalls.OpRuns` | kernel/log.c:127-236 | begin_op, bread, a change, log_write, brelse and end_op can be carried out: readers see the change and no other, the block is in the log once, the buffer is given back and the operation is over; if it was the only one a commit has begun |
| `LogCalls.CommitRuns` | kernel/log.c:66-204 | with fewer than NBUF blocks pinned and no buffer in use, a commit or a recovery can be carried out to its end, and what readers saw is then durable |
| `LogCalls.TransactionRuns` | kernel/log.c:66-236 | from a system at rest to one at rest: a block is written and committed, and what is durable has changed in that block alone |
| `LogCommitProof.LoggedStaysCached` | kernel/log.c:215-236 | between log_write and bunpin a logged block is cached, valid, referenced, and never recycled |
| `LogCommitProof.RefcntAfterCommit` | kernel/log.c:66-84 | after a commit every buffer's count is again the number of its users |
| `LogCommitProof.BufferLeft` | kernel/bio.c:57-88 | a bget is possible iff the block is cached or fewer than NBUF blocks are pinned or in use: "bget: no buffers" is reached nowhere else |
| `Bcache.PushFrontRing` | kernel/bio.c:129-132 | the four link-in assignments put a buffer at the front of the ring and keep it a ring, in both directions |
| `Bcache.UnlinkRing` | kernel/bio.c:127-128 | the two unlink assignments take out exactly that buffer and keep the rest in order |
| `Bcache.UniqueDevices` | kernel/bio.c:57-88 | the invariant that bget keeps is one buffer per block for every device but 0 |
| `Bcache.Cache.constructor` | kernel/bio.c:35-52 | binit links all NBUF buffers into one ring, none of them in use; they share one block of device 0, and there is one buffer per block of a device iff the device is not 0 |
| `Bcache.Cache.FindCached` | kernel/bio.c:64-72 | the first loop finds a buffer of the device's block iff there is one |
| `Bcache.Cache.FindUnused` | kernel/bio.c:74-86 | the second loop finds the least recently released buffer without users, and none iff all are in use |
| `Bcache.Cache.Bget` | kernel/bio.c:57-88 | no buffer is found iff the block is not cached and all buffers are in use; otherwise the one buffer of the block is handed out, and no block's latest contents change |
| `Bcache.Cache.Bread` | kernel/bio.c:91-102 | the buffer comes back locked and valid with the latest contents of the block, whatever was evicted before |
| `Bcache.Cache.Bwrite` | kernel/bio.c:105-111 | panics iff the lock is not held; else the block on disk becomes the buffer's contents and nothing a reader sees changes |
| `Bcache.Cache.Fill` | kernel/log.c:179-192 | changing a locked buffer changes the latest contents of its block and of no other |
| `Bcache.Cache.Brelse` | kernel/bio.c:115-136 | panics iff the lock is not held; the last release moves the buffer to the front and leaves the order of the others |
| `Bcache.Cache.MoveToFront` | kernel/bio.c:125-133 | the ring afterwards is the buffer followed by the others in their old order |
| `Bcache.Cache.Bpin` | kernel/bio.c:138-143 | a count goes up and no block's contents change |
| `Bcache.Cache.Bunpin` | kernel/bio.c:145-150 | a count goes down and no block's contents change, provided the buffer is clean if it was the last |
| `Log.BufferForLog` | kernel/log.c:179-192 | with the log's blocks pinned and nothing else in use, bread of another block fails iff every buffer is pinned |
| `Log.HeaderCommits` | kernel/log.c:103-115 | once the header naming the logged blocks is on disk, recovery restores what the cache showed |
| `Log.InstallRecovers` | kernel/log.c:66-84 | a crash after any number of installed blocks recovers to the same contents |
| `Log.InstallThenErase` | kernel/log.c:194-204 | every disk state from the header write to the erased header recovers to the same contents |
| `Log.Log.LogOne` | kernel/log.c:179-192 | one turn writes the latest contents of a logged block to its log block, and no one else sees a change; fails iff all buffers are pinned |
| `Log.Log.WriteLog` | kernel/log.c:179-192 | every log block holds the latest contents of its block; no home block and no header changed in any state on the way |
| `Log.Log.WriteHead` | kernel/log.c:103-115 | the header block on disk lists the logged blocks |
| `Log.Log.InstallOne` | kernel/log.c:66-84 | one turn copies a log block home and unpins it |
| `Log.Log.InstallTrans` | kernel/log.c:66-84 | the disk goes through exactly the partial installs, and no block stays pinned |
| `Log.Log.ReadHead` | kernel/log.c:87-98 | the list in memory is the one on disk |
| `Log.Log.Commit` | kernel/log.c:194-204 | succeeds iff the transaction has fewer than NBUF blocks; then home blocks are what readers saw, the log is empty, and every disk state on the way recovers to the contents before up to the header write and to the contents after from it on |
| `Log.Log.RecoverFromLog` | kernel/log.c:117-124 | home blocks become what the header promised, the log is empty, and every disk state on the way recovers to the same contents |
| `Log.Log.LogWrite` | kernel/log.c:215-236 | panics iff the log is full or no operation is under way; else the block is listed once and pinned once |
| `Log.Log.WriteBlock` | kernel/log.c:206-236 | bread, memmove, log_write and brelse of a new block leave it in the log, pinned once and in the cache, and nothing on disk |
| `Log.Log.EndOp` | kernel/log.c:147-176 | the last operation out commits what all have written and leaves the log empty; panics iff a commit is under way or the transaction has NBUF blocks |
| `Log.FullLog` | kernel/log.c:127-236 | three operations that write ten blocks each fill the log |
| `Log.FullLogRepeat` | kernel/log.c:219-230 | in that state a repeated log_write of a logged block panics |
| `Log.FullLogCommit` | kernel/log.c:147-204 | in that state the last of the three end_ops panics for want of a buffer |
| `FsLayout.BlockBitOfPut` | kernel/fs.c:66-106 | setting or clearing one bitmap bit changes that bit and no other |
| `Ownership.MarkBlock` | kernel/fs.c:76-82 | a block whose bit is clear belongs to no one, and marking it keeps the bitmap exact |
| `Ownership.ClearBlock` | kernel/fs.c:92-106 | a block that has left its file has its bit set, and clearing it keeps the bitmap exact |
| `Ownership.LooseWrite` | kernel/fs.c:51-60 | zeroing a block on its way into a file shows in no file |
| `Ownership.AttachDirect` | kernel/fs.c:411-429 | a zeroed block put in an empty inode slot is owned by that slot, and no file's bytes change |
| `Ownership.AttachEntry` | kernel/fs.c:430-438 | the same for an empty entry of an indirect block |
| `Ownership.DetachDirect` | kernel/fs.c:455-460 | clearing an inode slot takes that block from that file and leaves all other files |
| `Ownership.DetachIndirect` | kernel/fs.c:462-472 | dropping the indirect block takes it and every block it lists, and leaves all other files |
| `Ownership.DataWrite` | kernel/fs.c:528-562 | writing a data block changes those bytes of that file, and no other byte of any file |
| `Ownership.Resized` | kernel/fs.c:226-242 | changing an inode's type, links or size moves no block and no byte |
| `Fs.Fs.FindFree` | kernel/fs.c:66-89 | the scan finds the lowest block whose bit is clear |
| `Fs.Fs.Balloc` | kernel/fs.c:66-89 | the lowest free block, marked and zeroed, owned by no file, with both blocks changed in the log; 0 iff every block is in use; log_write's panic iff there is a free block and no operation is under way |
| `Fs.Fs.Bfree` | kernel/fs.c:92-106 | panics iff the bit is already clear or no operation is under way; else clears that bit |
| `Fs.Fs.EnsureAddr` | kernel/fs.c:411-429 | an empty inode slot gets a block of its own, if there is one, and what it changes is logged |
| `Fs.Fs.EnsureEntry` | kernel/fs.c:430-440 | an empty entry of the indirect block gets a block of its own, if there is one, and what it changes, the indirect block too, is logged |
| `Fs.Fs.Bmap` | kernel/fs.c:405-444 | the block of a file's block number, allocated if need be; 0 iff the free blocks do not do for the empty slots on the way; ownership is exact, exactly those slots are filled, every block changed is logged, and no file's bytes change, also when the indirect block was added and the data block could not be; panics iff no operation is under way and there is a block for an empty slot |
| `Fs.Fs.BmapIndirect` | kernel/fs.c:420-441 | the part for an indirect block, where one free block is not enough for two empty slots |
| `Fs.Fs.FreeAddr` | kernel/fs.c:455-460 | a direct block goes back to the bitmap and "freeing free block" is not reached |
| `Fs.Fs.FreeEntries` | kernel/fs.c:465-468 | every block that the indirect block lists goes back to the bitmap, once |
| `Fs.Fs.FreeIndirect` | kernel/fs.c:462-472 | the indirect block and all it lists go back to the bitmap, each once |
| `Fs.Fs.Iupdate` | kernel/fs.c:226-242 | the inode on disk is the inode in memory; panics iff no operation is under way |
| `Fs.Fs.Itrunc` | kernel/fs.c:448-476 | every block of the file and none of another file goes back to the bitmap, in memory and on disk, and every block changed is logged, the inode's too; "freeing free block" is not reached |
| `Fs.Fs.Iput` | kernel/fs.c:337-363 | the last reference to an inode without links frees its blocks and the inode, in memory and on disk, with every block changed logged; any other only drops the count |
| `Demand.RoomIs` | kernel/fs.c:66-89 | the blocks that balloc can still hand out are the data blocks that no slot owns; there is none iff every block is in use |
| `Demand.ServedNext` | kernel/fs.c:405-444 | bmap of a range of blocks, one after the other, gets through iff the free blocks do for all empty slots it comes to, and then exactly those are filled |
| `Demand.InodeSame` | kernel/fs.c:405-444 | an inode has changed iff one of its own slots was filled |
| `FileIo.Readi` | kernel/fs.c:494-519 | the bytes delivered are the file's from the offset on; how many, and whether the result is -1, is given by the range, the fault and the free blocks before the call; panics iff no operation is under way and a slot looked up is empty with a block free; else no block changes iff no slot looked up was empty or no block free, and the inode on disk is still that in memory iff none of its own slots was filled; every block that changed is logged |
| `FileIo.ReadTurn` | kernel/fs.c:504-517 | one turn of the loop delivers its part of the file or stops, for a full disk or a faulting destination, and fills exactly the slots it looked up |
| `FileIo.ReadLoop` | kernel/fs.c:504-517 | the loop delivers a prefix of the range, up to the fault or to where the free blocks run out |
| `FileIo.WriteChunk` | kernel/fs.c:539-551 | one turn of the loop splices its part into the file or stops, for a full disk or a faulting source; all that it changes is logged, except a block into which the source faults |
| `FileIo.WriteTurn` | kernel/fs.c:539-551 | one turn with the blocks it needs counted against the free ones |
| `FileIo.WriteChunks` | kernel/fs.c:539-551 | the loop splices a prefix of the source into the file, up to the fault or to where the free blocks run out; bytes beyond the reported ones are left iff the source ends inside a block |
| `FileIo.Writei` | kernel/fs.c:528-562 | refused iff the range starts beyond the end or ends beyond the largest file, and if not, panics iff no operation is under way; else the file is the old one with a prefix of the source spliced in, its size is right, all other files are as they were, and ownership is exact, on disk too; every block that changed is logged, the inode's too, except the one into which bytes leaked; it stops for want of blocks iff there are fewer free blocks than empty slots in the range, and at the first block that has none |
| `FileIo.ChunkLogs` | kernel/file.c:148-173 | on a disk with one bitmap block, one chunk of filewrite logs at most 7 blocks, within MAXOPBLOCKS |
| `FileIo.WriteOp` | kernel/file.c:156-165 | one transaction of filewrite: writei's effect; the blocks logged are at most 7, and all that changed are among them |
| `FileIo.Filewrite` | kernel/file.c:134-179 | for any offset: the file is the old one with the first `done` bytes spliced in at the offset, which advances by as much; it stops early only for a range that is too long or starts past the end, a faulting source or a full disk |
| `FileIo.WriteThenRead` | kernel/fs.c:494-562 | reading back what an operation wrote returns it and does not panic, in an operation or not, across direct and indirect blocks and any alignment, whatever holes the file has elsewhere |
| `Mkfs.Image.constructor` | mkfs/mkfs.c:108-115 | the zeroed image satisfies the ownership invariant |
| `Mkfs.Image.Ialloc` | mkfs/mkfs.c:222-234 | the next inode, empty and with one link |
| `Mkfs.Image.FillAddr` | mkfs/mkfs.c:270-278 | an empty inode slot gets the next free block, and no bytes of any file change |
| `Mkfs.Image.FillEntry` | mkfs/mkfs.c:279-284 | an empty entry of the indirect block gets the next free block, and no bytes of any file change |
| `Mkfs.Image.BlockFor` | mkfs/mkfs.c:268-285 | the block of a file's block number, taken from the next free blocks if need be, with no bytes of any file changed |
| `Mkfs.Image.WritePart` | mkfs/mkfs.c:267-293 | one turn of the loop puts its bytes at the end of the file and changes no others |
| `Mkfs.Image.Iappend` | mkfs/mkfs.c:254-296 | the file is the old one followed by the data; no other file changes; no file has a hole or a block past its end |
| `Mkfs.Image.FixRoot` | mkfs/mkfs.c:165-170 | the root's size is raised to a block boundary, and no byte of any file changes; the root then has a hole iff its size was a multiple of the block size and not the largest |
| `Mkfs.Image.Balloc` | mkfs/mkfs.c:236-250 | with the bitmap written, the image satisfies the invariant that the kernel's operations keep |
| `Mkfs.RootHole` | mkfs/mkfs.c:165-170 | of any inode that has exactly the blocks below its size: raising the size as mkfs does makes a hole iff the size was a multiple of the block size and not the largest |
| `Boot.FlatHolds` | mkfs/mkfs.c:117-170 | a file that reads as the entries one after the other, with room to spare, is the directory of these entries and blank ones |
| `Boot.CopyIn` | mkfs/mkfs.c:159-160 | the loop over read and iappend leaves the file with exactly the bytes read and every other file as it was |
| `Boot.AddFile` | mkfs/mkfs.c:130-162 | one turn of the loop over the files adds an inode, its name at the end of the root and its bytes, and nothing else |
| `Boot.MakeRoot` | mkfs/mkfs.c:90-128 | the image before the first file: a root with "." and ".." |
| `Boot.MakeFs` | mkfs/mkfs.c:90-174 | for all files that fit: the kernel finds ownership exact in memory and on disk, every file with its bytes, and the root with their names in order and blank entries after them; the root has a hole iff the number of its entries is a multiple of 64, and no file has one |
| `Boot.TreeOk` | mkfs/mkfs.c:117-162 | with different names every link count of that image is right |
| `Boot.FullRoot` | mkfs/mkfs.c:117-170 | 62 empty files make a root whose second block is missing |
| `Boot.HoleRead` | kernel/fs.c:494-519 | in that image, in an operation, a one-byte read of the root's second block changes its inode in memory and not on disk |
| `Boot.HoleReadOutside` | kernel/file.c:119-123 | in that image, outside of any operation, the same read panics |
| `Boot.TwoBytes` | mkfs/mkfs.c:117-170 | an image with one file of two bytes, whose block is there |
| `Boot.LeakyWrite` | kernel/fs.c:528-562 | in an image with a file of two bytes, a write over them whose source faults after one byte returns 0 and leaves that byte in the file |
| `Directory.UnpackPack` | kernel/fs.c:602-629 | a name stored in an entry reads back cut to 14 bytes |
| `Directory.Namecmp` | kernel/fs.c:566-570 | names are equal iff they agree once cut to 14 bytes |
| `Directory.Dirlookup` | kernel/fs.c:574-598 | finds the name's inode in the map that the entries stand for, and nothing iff the map lacks the name |
| `Directory.EmptySlot` | kernel/fs.c:615-621 | the first empty entry, or the end |
| `Directory.Dirlink` | kernel/fs.c:602-629 | succeeds iff the name is new and there is an empty entry or room for one; then the map has that name and all it had |
| `Directory.PutDenotes` | kernel/fs.c:623-626 | putting an entry for a new name in an empty place adds it to the map |
| `Directory.EraseDenotes` | kernel/sysfile.c:229-231 | clearing an entry removes its name and no other from the map |
| `Directory.IsDirEmpty` | kernel/sysfile.c:180-193 | empty iff no entry but the first two is in use |
| `DirFile.DecodeEncode` | kernel/fs.h:59-64 | an entry stored in 16 bytes reads back, inode number and name |
| `DirFile.ReadEntry` | kernel/fs.c:583-585 | the entry that the directory's bytes hold; none iff it lies in a hole for which there is no block, or in any outside of an operation |
| `DirFile.Dirlookup` | kernel/fs.c:574-598 | over the bytes on disk: finds an entry with the name iff there is one; no byte of any file changes, and blocks added are logged; panics iff the entries up to the match, or to the end, come to more empty slots than there are blocks for |
| `DirFile.FindSlot` | kernel/fs.c:615-621 | the first empty entry on disk, or the end; panics iff the entries up to it come to more empty slots than there are blocks for |
| `DirFile.ScanNext` | kernel/fs.c:574-621 | one entry more can be read iff the blocks before the scan did for all slots up to it |
| `DirFile.WriteEntry` | kernel/fs.c:623-626 | all of the entry is on disk or none of it, since no block ends inside one; succeeds iff the entry ends within the largest file and there are blocks for the empty slots it needs; every block changed is logged, and the inode is written back |
| `DirFile.ClearEntry` | kernel/sysfile.c:229-231 | clearing an entry in use never fails, so "unlink: writei" is not reached; the directory loses that name and all other files are as they were |
| `DirFile.SplicedHolds` | kernel/fs.c:623-626 | sixteen bytes spliced in at an entry's place put that entry there and leave the others |
| `DirFile.Dirlink` | kernel/fs.c:602-629 | over the bytes on disk: panics iff dirlookup does; else it fails iff the name is there, or no entry is empty and the directory is as large as a file can be or there is no block for one entry more; it then is as before, and else it gains exactly that entry, with every block changed in the log and the inode on disk up to date; all other files are as they were |
| `Links.LinkedOk` | kernel/sysfile.c:131-177 | a new name for a file, counted, keeps every link count equal to the number of entries that name the inode |
| `Links.AddedOk` | kernel/sysfile.c:272-281 | a new inode without links changes no count |
| `Links.AdoptedOk` | kernel/sysfile.c:283-296 | a new directory, with its ".." counted in its parent, keeps every count |
| `Links.DroppedOk` | kernel/sysfile.c:229-239 | removing a file's name keeps every count, and there was one to take |
| `Links.RemovedOk` | kernel/sysfile.c:229-239 | removing an empty directory, with its "..", keeps every count |
| `Links.OneLink` | kernel/sysfile.c:222-227 | an empty directory has one link, the entry being removed |
| `Links.TwoLinks` | kernel/sysfile.c:232-235 | its parent has at least two, so that nlink does not go below 1 |
| `Links.FreedOk` | kernel/fs.c:337-363 | freeing an inode without links keeps every count |
| `Links.RootOk` | mkfs/mkfs.c:117-128 | the root directory that mkfs makes has the right count |
| `Links.LinkRight` | kernel/sysfile.c:131-177 | after a second name for a file is made in any directory every count is right iff the directory is still linked; if it is not, the file's count is wrong |
| `Links.CreateFileRight` | kernel/sysfile.c:252-309 | the same for a new file |
| `Links.CreateDirRight` | kernel/sysfile.c:252-309 | the same for a new directory; if the parent is not linked, the count of the inode that its ".." names is wrong, or that inode is gone |
| `Links.OrphanOk` | kernel/sysfile.c:195-309 | mkdir and then rmdir of the same directory keep every count right |
| `Links.OrphanCounts` | kernel/sysfile.c:131-309 | in the directory so removed: a file made in it, a directory made in it and a second name made in it, each with the count that is wrong |
| `Links.LinkStored` | kernel/sysfile.c:131-177 | with counts of 16 bits every count is right after link iff the directory is still linked and the file had fewer than 32767 links |
| `Links.CreateDirStored` | kernel/sysfile.c:252-309 | with counts of 16 bits every count is right after mkdir iff the parent is still linked and had fewer than 32767 links |
| `LinkLimit.ManyNames` | kernel/sysfile.c:131-177 | for every n up to 32767 a mkdir, a create and n - 1 calls of sys_link, with names that have no slash, lead to a state with all counts right and a file with n names |
| `LinkLimit.LinkOverflows` | kernel/sysfile.c:131-250 | the 32768th name, in directories that fit in files, makes the count -32768 and so wrong, and sys_unlink of it panics |
| `Links.Files.Ialloc` | kernel/fs.c:199-220 | the first free inode, none iff all are in use |
| `Links.Files.MakeDots` | kernel/sysfile.c:283-287 | a new directory holds "." and "..", unless there is no room |
| `Links.Files.Make` | kernel/sysfile.c:272-309 | fails iff there is no inode or no room, and then nothing has changed; else the new inode is named in the parent, and all counts are right iff the parent is still linked and, for a directory, its own count was not full |
| `Links.Files.Enter` | kernel/sysfile.c:289-303 | the end of create: the name is in the parent, and all counts are right iff the parent is still linked and, for a directory, its own count was not full |
| `Links.Files.Create` | kernel/sysfile.c:252-309 | an existing file is returned for T_FILE, any other existing name is refused; a new name is made as Make says, with the counts right as Make says |
| `Links.Files.Link` | kernel/sysfile.c:131-177 | succeeds iff the inode is not a directory, the name is new and there is room; on failure the count is what it was, also if it was full; on success all counts are right iff the directory is still linked and the count was not full |
| `Links.Files.Unlink` | kernel/sysfile.c:195-250 | panics iff the name is for an inode whose count is not positive, which is never so in a linked directory with all counts right; else, in a linked or an emptied, removed directory, it fails only for ".", "..", a missing name and a directory that is not empty, and on success the name is gone and all counts are right |
| `Links.Files.Erase` | kernel/sysfile.c:220-240 | the part after the lookup: fails iff the inode is a directory that is not empty |
| `Links.Files.Reclaim` | kernel/fs.c:337-363 | an inode without links goes, and all counts stay right |
| `PageTable.SlotsApart` | kernel/vm.c:97-117 | the leaf entries of two pages below MAXVA, of one address space or of two, are in one slot of one table page iff the pages and spaces are the same |
| `PageTable.WalkDown` | kernel/vm.c:97-117 | a walk meets the table pages recorded for the page, and levels 2 and 1 hold no leaf entries |
| `PageTable.UniqueTable` | kernel/vm.c:97-117 | there is one table page for each root, level and prefix |
| `PageTable.SetLeafMap` | kernel/vm.c:169-171 | writing a level-0 entry changes the flat map at one page of one address space |
| `PageTable.LinkMap` | kernel/vm.c:107-114 | adding an empty table page changes no flat map |
| `Vm.Vm.constructor` | kernel/kalloc.c:26-41 | kinit: every page of the range is free, once |
| `Vm.Vm.Kalloc` | kernel/kalloc.c:68-84 | a page that was free, none iff there is none |
| `Vm.Vm.Kfree` | kernel/kalloc.c:46-63 | the page is free again and the free list still holds each free page once |
| `Vm.Vm.Walk` | kernel/vm.c:97-117 | the entry that the flat map gives; table pages are added only if asked for and only for this address space; none only if the page is unmapped and, when asked to add, memory is out |
| `Vm.Vm.AddTable` | kernel/vm.c:107-114 | a free page becomes the table page for its prefix, and no flat map changes |
| `Vm.Vm.MapOne` | kernel/vm.c:164-177 | one turn maps one page that was not mapped; remap and no memory change no flat map |
| `Vm.Vm.Mappages` | kernel/vm.c:147-178 | pages are inserted in the flat map in order; stops at a mapped page or for want of memory, with those before it mapped |
| `Vm.Vm.UnmapOne` | kernel/vm.c:205-215 | one page leaves the flat map and its physical page is free; an unmapped page is skipped |
| `Vm.Vm.Uvmunmap` | kernel/vm.c:196-216 | exactly the range leaves the flat map, and exactly its physical pages are free |
| `Vm.Vm.AddPage` | kernel/vm.c:232-249 | a page of its own with the given contents at a page that was not mapped; else every flat map as it was; fails only with fewer than three free pages |
| `Vm.Vm.Uvmdealloc` | kernel/vm.c:256-268 | exactly the pages between the two sizes leave the flat map and are free |
| `Vm.Vm.Uvmalloc` | kernel/vm.c:220-250 | every page between the two sizes is mapped, zeroed, on a page of its own, or every flat map is as before and only table pages were kept; fails only for want of memory, and always when a space without gaps would reach the trapframe in a machine with fewer pages than that |
| `Vm.CrowdedEnd` | kernel/vm.c:220-250 | an address space without gaps ends below the trapframe in a machine with fewer physical pages than virtual ones below it |
| `Vm.Vm.Uvmcopy` | kernel/vm.c:306-334 | the child's pages copy the parent's, flags and contents, on pages of their own, or every flat map is as before; fails only for want of memory |
| `Teardown.Freewalk` | kernel/vm.c:272-288 | panics iff a leaf is left; else frees exactly the table pages below and no other page |
| `Teardown.Uvmfree` | kernel/vm.c:292-298 | never panics when nothing is mapped past the size; every page of the space is free and every other space is as it was |
| `Teardown.UnmapSpecial` | kernel/proc.c:210-216 | the trampoline or trapframe page leaves the flat map and is not freed |
| `Teardown.FreePagetable` | kernel/proc.c:210-216 | "freewalk: leaf" is not reached; every page of the space is free, every other page and space as it was |
| `UserMemory.Vmfault` | kernel/vm.c:462-483 | a missing page below the size is mapped and reads as zeros, which no process can see; fails only past the size, for a mapped page or for want of memory |
| `UserMemory.Walkaddr` | kernel/vm.c:122-140 | the physical page, iff the page is mapped for the user |
| `UserMemory.Reach` | kernel/vm.c:363-368 | the user's page, faulted in when due, with no view changed; a page that is there costs nothing |
| `UserMemory.Copyout` | kernel/vm.c:352-385 | exactly the bytes copied change in the view of this process, none in any other; stops only at a page the user may not write or for want of memory |
| `UserMemory.Copyin` | kernel/vm.c:390-413 | the bytes are those of the view and no view changes; stops only at a byte the user does not have or for want of memory |
| `UserMemory.ReadBack` | kernel/vm.c:352-413 | what copyout wrote copyin reads back, across pages and faults |
| `UserMemory.ChildSees` | kernel/vm.c:306-334 | after uvmcopy the child sees what the parent does and may read, write and execute what it may, at every page |
| `UserMemory.Uvmclear` | kernel/vm.c:338-347 | the page is out of the user's reach and nothing else changes |
| `UserMemory.TranslateAgrees` | kernel/vm.c:85-117 | translation as in section 4.3.2 of the RISC-V Privileged Architecture, version 20211203, gives the page of the software walk, and faults where the walk finds nothing or an entry that is writable and not readable |
| `ProcMemory.Uvmcreate` | kernel/vm.c:182-191 | a new address space that maps nothing |
| `ProcMemory.MapTop` | kernel/proc.c:186-203 | one page above user memory is mapped, or nothing changes but table pages |
| `ProcMemory.ProcPagetable` | kernel/proc.c:176-206 | a new space with trampoline and trapframe and nothing else, or every page in the use it had |
| `ProcMemory.Growproc` | kernel/proc.c:236-255 | the user has zeros past the old end that it may read and write and not execute, nothing past the new end, and sees and may do everything else as before; on failure, only for want of memory or past the limit, no change |
| `ProcMemory.Sbrk` | kernel/sysproc.c:41-67 | eager and lazy growth give the same view and the same rights in every page |
| `ProcMemory.Serve` | kernel/vm.c:352-483 | any one request has the effect and the answer that sbrk, a page fault, copyout and copyin promise, and changes only this process's pages and view, and not its trapframe |
| `ProcMemory.NoTrace` | kernel/proc.c:176-216 | a space that is made and freed leaves no trace in any page's use or any map |
| `Argv.ValueOfLe` | kernel/exec.c:109-117 | a pointer stored in eight bytes, the lowest first, reads back |
| `Argv.PointerAt` | kernel/exec.c:109-117 | each eight bytes of the array are one pointer |
| `Argv.ArgvReads` | kernel/exec.c:96-122 | a program that follows pointer k of its argument array finds argument k with its terminating zero; the last pointer is null |
| `Exec.Loadseg` | kernel/exec.c:154-173 | the segment's bytes and no others appear in the view; "address should exist" is not reached; fails iff the file is too short |
| `Exec.Extend` | kernel/exec.c:71-73 | the image grows by zero pages with the header's flags, or stays as it is for want of memory, which includes every size that would reach the trapframe |
| `Exec.LoadOne` | kernel/exec.c:74-75 | the bytes of one header, as many as the low 32 bits of filesz say, are in the image; fails iff the file is shorter than that |
| `Exec.CutHeader` | kernel/exec.c:154-173 | a header that gives 2^32 + 4 bytes of a file of four is loaded as one that gives four |
| `Exec.ProtectedMore` | kernel/exec.c:13-21 | a header more, with its pages mapped as it asks, and all pages of the image are mapped with the rights of the header that brought them |
| `Exec.LoadAll` | kernel/exec.c:58-76 | the view of the new space is the image that all headers together describe, the last one deciding, and every page can be read, and written or executed iff the header that brought it says so; fails only for a bad header, among them one whose end is past 2^64, or want of memory |
| `Exec.Stack` | kernel/exec.c:84-94 | a page out of reach and above it a stack page that can be read and written and not executed; the image is unchanged |
| `Exec.Push` | kernel/exec.c:96-117 | the argument vector is on the stack iff it fits, and nothing below the stack changed |
| `Exec.PushOne` | kernel/exec.c:105-106 | copyout to the new stack neither fails nor faults |
| `Exec.Image` | kernel/exec.c:58-117 | all of the above from an empty space to a started one |
| `Exec.Kexec` | kernel/exec.c:26-148 | success: the process sees the image, in pages with the rights of their headers, an unreachable guard page and its arguments, the old image's pages are free, no other page changed its use and every other space is mapped and seen as before; failure, only for bad headers, arguments that do not fit or want of memory: every page, map and view as before |
| `Process.FramesOnly` | kernel/proc.c:155-255 | whatever one process does below its trapframe, every process keeps a trapframe page of its own, used for nothing else |
| `Process.Freeproc` | kernel/proc.c:155-172 | the pages of the address space and the trapframe page, if there are any, and no other page, are free; every other process is as it was |
| `Process.Allocproc` | kernel/proc.c:109-150 | a trapframe page and an empty address space that maps it, or every page in the use it had, also when the second kalloc failed; fails only for want of memory |
| `Process.Kfork` | kernel/proc.c:259-273 | the child has a trapframe of its own and sees what the parent sees, with the same rights, on pages of its own, or every page is in the use it had; the parent goes on as before; fails only for want of memory |
| `Process.ExecProc` | kernel/exec.c:26-148 | success: the process runs the new image with the trapframe it had, and every other process is mapped and sees as before; failure: all as it was |
| `Process.Perform` | kernel/proc.c:155-255 | any one act of a process, exec among them, has the effect and the answer that it promises and keeps every page of every other process |
| `Process.Lifetime` | kernel/proc.c:109-255 | a process is made, grows, shrinks, faults, reads, writes and execs in any order, each with the effect and the answer promised for its memory at that moment, and is freed: every physical page, trapframe and tables included, is then in the use it had before, and no other process sees a difference |
| `Process.FramesNew` | kernel/proc.c:128-141 | the page that kalloc gave is the new space's trapframe and no other's |
| `Process.FramesGone` | kernel/proc.c:155-172 | a trapframe goes with its address space, and the others stay |
| `Process.MadeReturned` | kernel/proc.c:109-172 | what allocproc took and freeproc gave back leaves no trace in any page's use or any map |
| `Process.FirstProcess` | kernel/proc.c:109-150 | a machine that has just started has a first process |
| `Process.EmptyFirst` | kernel/exec.c:58-76 | in that machine a well-formed program whose first header is empty does not start, with memory to spare |
| `Process.ShrinkBelowZero` | kernel/proc.c:236-255 | in that machine a program of three pages is started and shrinks by a byte more than it has: growproc succeeds and changes nothing |
| `Sleep.StepInv` | kernel/proc.c:424-608 | every step of every process, of the scheduler and of kill keeps the invariant, for any channels, conditions and locks |
| `Sleep.RunInv` | kernel/proc.c:424-608 | every reachable state satisfies it |
| `Sleep.NoLostWakeup` | kernel/proc.c:542-587 | in every reachable state, if a process sleeps on a channel whose condition holds, the channel's lock is held by a process that has still to call wakeup on it or is in a scan that has not come to the sleeper |
| `Sleep.NoSleeper` | kernel/proc.c:542-587 | no process is asleep or on its way to sleep on a channel whose condition holds while the channel's lock is free |
| `Sleep.WakeupReaches` | kernel/proc.c:573-587 | when wakeup's scan is done no process is still asleep on the channel, until the lock is let go |
| `Sleep.NoPanic` | kernel/proc.c:472-490 | no lock is taken twice or released by a stranger, and sched is entered with its lock held and in the right state |
| `Sleep.Unstuck` | kernel/proc.c:542-587 | whoever holds a lock can go on, call a wakeup it owes or let go; or it waits for a process's own lock, and the holder of that can go on |
| `SleepCalls.SleepRuns` | kernel/proc.c:542-569 | a process that holds the channel's lock and calls sleep ends up asleep on the channel with the lock free, and nothing else has changed |
| `SleepCalls.ResumeRuns` | kernel/proc.c:542-569 | a process that was woken runs again with that lock and on no channel |
| `SleepCalls.KillRuns` | kernel/proc.c:592-611 | a process asleep that is killed runs again with the lock that it slept with |
| `SleepCalls.YieldRuns` | kernel/proc.c:492-501 | yield leaves the process ready to run, and when it has run again all is as it was |
| `SleepCalls.WakeRuns` | kernel/proc.c:573-587 | wakeup makes exactly the processes asleep on the channel ready to run and changes no other |
| `SleepCalls.WokenBy` | kernel/proc.c:573-608 | in every reachable state only kill and a wakeup on its own channel, by the holder of the channel's lock, end a process's sleep |
| `SleepLock.StepInv` | kernel/sleeplock.c:21-40 | every call on a sleep-lock keeps the invariant and the rule of sleep and wakeup |
| `SleepLock.RunInv` | kernel/sleeplock.c:21-40 | every reachable state satisfies it |
| `SleepLock.KeepsRule` | kernel/sleeplock.c:21-40 | sleep-locks keep the rule on which sleep and wakeup rely: every step that the code can come to is one that the machine allows |
| `SleepLock.MutualExclusion` | kernel/sleeplock.c:21-40 | in every reachable state at most one process has a sleep-lock |
| `SleepLock.NoSleepOnFree` | kernel/sleeplock.c:21-40 | no process sleeps on a sleep-lock that is free, unless the holder of its spinlock has still to wake it |
| `SleepLockCalls.AcquireRuns` | kernel/sleeplock.c:21-31 | acquiresleep of a free lock: the caller has it, and nothing else has changed |
| `SleepLockCalls.BlockRuns` | kernel/sleeplock.c:21-31 | acquiresleep of a taken lock: the caller is asleep until it is given back |
| `SleepLockCalls.ReleaseRuns` | kernel/sleeplock.c:33-40 | releasesleep: the lock is free and exactly those who slept for it are ready to run |
| `SleepLockCalls.HandOver` | kernel/sleeplock.c:21-40 | a lock goes from the process that gives it back to one that sleeps for it, which then has it, alone |
| `ProcTree.StepInv` | kernel/proc.c:259-415 | every step of fork, exit, wait and reparent keeps the invariant |
| `ProcTree.RunInv` | kernel/proc.c:259-415 | every reachable state satisfies it |
| `ProcTree.LiveParent` | kernel/proc.c:310-366 | no process has an exited process or an empty slot for a parent |
| `ProcTree.NoSleepOverZombie` | kernel/proc.c:370-415 | while wait_lock is free no process sleeps in wait that has an exited child |
| `ProcTree.ReapedOnce` | kernel/proc.c:370-415 | each exit is returned by at most one wait, and wait returns nothing else |
| `ProcTree.PidsDistinct` | kernel/proc.c:92-172 | processes have different pids, none of a process that was reaped |
| `ProcTree.NoChildren` | kernel/proc.c:406-410 | when wait gives up for want of children there are none |
| `ProcTree.ReapsChild` | kernel/proc.c:382-404 | in every reachable state a step that returns a pid frees the slot of an exited child of the caller that has left its CPU, returns that child's pid, and changes no other slot but the caller's |
| `ProcTree.FreeIsOff` | kernel/proc.c:340-366 | in every reachable state a process that has not yet left its CPU for good has exited and not been returned |
| `Umalloc.Heap.constructor` | user/umalloc.c:21-22 | an empty heap |
| `Umalloc.Heap.FindPlace` | user/umalloc.c:30-32 | the scan ends, at the free block after which the block belongs |
| `Umalloc.Heap.Coalesce` | user/umalloc.c:33-42 | the block is joined to its neighbours exactly when they touch |
| `Umalloc.Heap.Free` | user/umalloc.c:24-44 | exactly the block's units are free, every other unit has the holder it had, and the list is again one ordered cycle of blocks that do not touch |
| `Umalloc.Heap.Morecore` | user/umalloc.c:46-61 | exactly the new units are added, all free; no memory changes nothing |
| `Umalloc.Heap.Units` | user/umalloc.c:69-69 | enough whole units for the request and its header, and no more than needed |
| `Umalloc.Heap.Take` | user/umalloc.c:75-85 | units that were free go to the caller, every other unit has the holder it had |
| `Umalloc.Heap.Start` | user/umalloc.c:70-73 | the list of the base block alone |
| `Umalloc.Heap.Search` | user/umalloc.c:74-89 | the loop ends; new memory is asked for iff no block fits, and at most once; it fails iff there is none |
| `Umalloc.Heap.Malloc` | user/umalloc.c:63-90 | units that no one held, at least as many as asked for, go to the caller and no live block changes; it fails iff nothing fits and there is no more memory |
| `Umalloc.BlocksApart` | user/umalloc.c:24-90 | no two blocks, free or handed out, share a unit |
| `Umalloc.Conserved` | user/umalloc.c:24-90 | units handed out and free units together are the units obtained from sbrk |
| `Umalloc.RequestFits` | user/umalloc.c:54-54 | the byte count that morecore passes to sbrk survives the conversion to int iff the request is at most 0x7fffffe0 bytes |
| `Umalloc.RequestWraps` | user/umalloc.c:54-54 | one byte more than that, and the count is negative |
| `ProcCalls.ForkRuns` | kernel/proc.c:259-302 | fork, from any reachable state: the first free slot holds a child of the caller, ready to run, with a pid that no process has or had; without a free slot or memory nothing changes but a pid that is not used again |
| `ProcCalls.ExitRuns` | kernel/proc.c:324-366 | exit, from any reachable state: the caller is a zombie and its pid given up, its children are init's, init if it got any and the parent are awake, and nothing else has changed |
| `ProcCalls.WaitRuns` | kernel/proc.c:370-415 | wait, from any reachable state: with an exited child, the first one's pid is returned and its slot is empty, unless copyout fails; without one, the caller sleeps if it has children and is not killed, and else returns |
| `ProcCalls.Reunion` | kernel/proc.c:324-415 | a parent asleep in wait gets the pid of the child that exits, and the slot is empty |
| `ProcCalls.KilledReturns` | kernel/proc.c:370-415 | a process asleep in wait that is killed returns, and nothing else has changed |
| `ProcCalls.YieldRuns` | kernel/proc.c:492-501 | yield leaves the process ready to run, and when it has run again all is as it was |
| `ProcCalls.Nearer` | kernel/proc.c:382-404 | a move of wait with an exited child ahead, copyout to succeed, returns an exited child or is nearer to it |
| `ProcCalls.Undisturbed` | kernel/proc.c:382-404 | no step of another process moves a process in wait or changes the child that it is to find |
| `ProcCalls.WaitReaps` | kernel/proc.c:370-415 | whatever other processes do in between, wait returns an exited child by the time the caller has moved twice for each slot up to it |
| `Virtio.Disk.constructor` | kernel/virtio_disk.c:144-146 | nothing is in flight and every descriptor is free |
| `Virtio.Disk.AllocDesc` | kernel/virtio_disk.c:156-166 | the first free descriptor, none iff none is free |
| `Virtio.Disk.FreeOne` | kernel/virtio_disk.c:169-182 | one descriptor is free again and cleared |
| `Virtio.Disk.Undo` | kernel/virtio_disk.c:206-210 | the descriptors taken so far are free again |
| `Virtio.Disk.Alloc3` | kernel/virtio_disk.c:201-213 | three different free descriptors iff there are three; else all as it was |
| `Virtio.Disk.Build` | kernel/virtio_disk.c:235-269 | the three descriptors form the request's chain: command, data, status |
| `Virtio.Disk.Post` | kernel/virtio_disk.c:271-277 | the chain is the next in the avail ring, across the 16-bit wrap |
| `Virtio.Disk.Place` | kernel/virtio_disk.c:235-277 | a new request owns three descriptors that no other request owns |
| `Virtio.Disk.Submit` | kernel/virtio_disk.c:215-281 | a request is in flight iff there were three free descriptors; else nothing changed |
| `Virtio.Disk.DeviceTake` | kernel/virtio_disk.c:271-281 | the device takes a chain that was posted and not yet taken |
| `Virtio.Disk.Transfer` | kernel/virtio_disk.c:238-265 | following the chain, the device moves the block in the direction asked for and reports success, or fails with any status |
| `Virtio.Disk.DeviceComplete` | kernel/virtio_disk.c:309-324 | a taken chain, in any order and with any status, is completed once |
| `Virtio.Disk.Finished` | kernel/virtio_disk.c:309-314 | it is the next in the used ring, across the 16-bit wrap |
| `Virtio.Disk.Notice` | kernel/virtio_disk.c:312-324 | the used entry is of a live request; panics iff the device failed it; else its buffer, and no other, is done |
| `Virtio.Disk.Intr` | kernel/virtio_disk.c:294-327 | panics iff the device failed a request that is in the used ring; else every completed request is noticed, once, and no other is |
| `Virtio.Disk.FreeChain` | kernel/virtio_disk.c:185-197 | exactly the three descriptors of the chain are free |
| `Virtio.Disk.Wipe` | kernel/virtio_disk.c:288-289 | the request's record is cleared with its chain |
| `Virtio.Disk.Finish` | kernel/virtio_disk.c:283-291 | the request is gone and its three descriptors are free, the others as they were |
| `Virtio.OwnMore` | kernel/virtio_disk.c:226-233 | a request that claims three free descriptors shares none, and free[] stays the complement of what requests own |
| `Virtio.OwnSize` | kernel/virtio_disk.c:201-213 | requests in flight own three descriptors each |
| `Virtio.AtMostTwo` | kernel/virtio_disk.c:215-280 | at most two requests are in flight |
| `Pipe.Pipe.constructor` | kernel/pipe.c:23-45 | an empty pipe open at both ends |
| `Pipe.Pipe.Put` | kernel/pipe.c:93-97 | the byte is last in line, across the wrap of the 32-bit counters |
| `Pipe.Pipe.Get` | kernel/pipe.c:122-130 | the byte that is first in line, across the wrap |
| `Pipe.Pipe.WriteTurn` | kernel/pipe.c:77-104 | the bytes sent are the next of the call, in order; the writer sleeps only when the pipe is full and readers are awake; a reader is left asleep over bytes iff one was asleep and the writer is killed after at least one byte that fits, before its end and before a fault |
| `Pipe.KilledWriter` | kernel/pipe.c:77-104 | a writer of two bytes killed after the first leaves the reader asleep over it |
| `Pipe.Pipe.Drain` | kernel/pipe.c:121-131 | as many bytes as asked for and pending, in order; fewer only if copyout fails |
| `Pipe.Pipe.ReadTurn` | kernel/pipe.c:106-135 | the reader sleeps iff the pipe is empty, open for writing and it was not killed; else it has the first bytes pending, and writers are awake |
| `Pipe.Pipe.Close` | kernel/pipe.c:59-75 | the other side is awake; the page is freed when both ends are closed, once |
| `Pipe.Pipe.InOrder` | kernel/pipe.c:77-135 | bytes received are a prefix of bytes sent, at most 512 behind; readers and writers are not both asleep |

## Left out

- Console, UART, PLIC, printf, boot, trap entry and system-call dispatch, assembly: device registers and thin dispatch.
- Spinlocks are atomic steps with sequentially consistent memory; the instructions and fences are not modelled.
- begin_op's sleeping and the wakeups in end_op: in the log machine a step that has to wait is not enabled.
- Path lookup (skipelem, namex) and the inode cache (iget, ilock, idup, ireclaim): inodes are named by number and are in memory.
- The open-file table (filealloc, filedup, fileclose) and the other cases of fileread and filewrite.
- copyinstr, and the kernel's own page table (kvmmake, proc_mapstacks).
- What is in a trapframe, and kernel stacks. The trampoline is a page of the kernel's text, given as a parameter.
- DirFile.WriteEntry: in an operation, as create, link and unlink are; so are DirFile.ClearEntry and DirFile.Dirlink.
- log_write's other panic, "too big a transaction", in `Fs` and `FileIo`: `LogProof` and FileIo.WriteOp show that an operation within its budget does not reach it.
- Links: directories are sequences of entries, and whether one can grow is a parameter. `DirFile` shows for lookup, linking and clearing an entry that bytes on disk behave like these sequences.
- kill: it is a step of `Sleep` and `ProcTree` and a parameter of pipe turns; the tests of killed elsewhere are not modelled.
- Several devices: there is one disk, ROOTDEV.
- virtio feature negotiation and a device that breaks the protocol.
- Liveness: calls, wakeups and commits come to their end in so many moves of their own, but no schedule is assumed or proved to serve everyone.
- LogCommitProof.RunRefines: a bget that finds no buffer to recycle is not a step of the machine; LogCommitProof.BufferLeft says exactly when that is.
- LogProof.LogWriteKeeps: for clients that log at most MAXOPBLOCKS different blocks in an operation and hold the buffer; the exact condition without that is Log.Log.LogWrite's.
- Bcache.Cache.Bget: a locked buffer of the block, for which the caller would sleep, is left to the log machine; dev is ROOTDEV.
- Bcache.Cache.Bunpin: the caller must not drop the last reference to a buffer that the disk does not agree with, as log.c never does.
- Fs.Fs.Bmap: block numbers below MAXFILE; callers check, and the panic for others is not modelled.
- Fs.Fs.Iupdate: inodes are values beside the blocks; how their fields lie in an inode block is not modelled.
- Fs.Fs.Itrunc: in an operation, as the comment at iput demands of all its callers.
- Fs.Fs.Iput: in an operation; no other process holds the inode's lock, and the table's lock is not modelled.
- Links.Files.Create: one call at a time, in a directory that is linked or was removed.
- Links.Files.Unlink: not for a removed directory in which entries were made since.
- Mkfs.Image.Iappend: the image has enough blocks, counted as two for every block written in; mkfs does not ask. Boot.MakeFs likewise, and for inodes.
- Vm.Vm.Uvmalloc: pages to be added are not mapped; mappages would panic otherwise. A space with gaps stays below the trapframe.
- Vm.Vm.Kfree: the panics for addresses that are not pages are not modelled.
- ProcMemory.Growproc: sizes are page counts below the trapframe, as Space says.
- Exec.Kexec: program headers are given with their bytes: the ELF header and the file system calls are not part of the model. There are fewer than MAXARG arguments, which sys_exec sees to, and fewer physical pages than virtual ones below the trapframe, as on any machine the kernel runs on.
- Umalloc.Heap.Malloc: requests up to the size in Umalloc.RequestFits; sbrk's answer is a parameter, never below memory already obtained.
- ProcCalls.ExitRuns: not for init, whose exit is a panic.
- ProcTree.PidsDistinct: pids are unbounded; nextpid does not overflow.
