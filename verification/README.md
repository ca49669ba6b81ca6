# xv6-riscv, verified in Dafny

A model of the hard parts of the xv6-riscv kernel and of two of its user programs, with proofs about every run of
each. `dafny verify dfyconfig.toml` checks all of it.

- **The redo log over the buffer cache** (`LogMachine`, `LogInvariant`, `LogTheorems`, `LogBudget`, `LogOrder`,
  `LogPanics`, `LogStarve`): log.c and bio.c as a state machine whose steps are the lock-granularity steps of any number
  of processes, of commit and of recovery, with a crash possible between any two of them. `Log` is the code of log.c over a disk that records
  the image after every block write, and `Bio` the linked ring of bio.c.
- **Files** (`FsBlocks`, `Fs`): block allocation, bmap, itrunc, readi, writei and filewrite over the bitmap, the inodes
  and the blocks, with a ghost map that says which file owns which block, and the log blocks each call spends: whatever a
  transaction changes it has logged.
- **Names and link counts** (`LinkTree`, `LinkTheorems`, `LinkRuns`, `LinkWrap`, `LinkLookup`, `LinkPaths`, `Links`):
  link, unlink and create over directories, the two halves of link interleaved with anything else; what names and paths
  mean before and after.
- **Memory** (`VmTree`, `VmFree`, `VmCount`, `Vm`): Sv39 page tables (section 4.4 of the RISC-V Privileged Architecture, version
  20211203) and the page allocator, every page having one role at a time; how many pages each call needs.
- **The heap** (`HeapList`, `Heap`, `Umalloc`): the allocator of section 8.7 of Kernighan and Ritchie's "The C
  Programming Language", second edition, as umalloc.c has it.
- **Processes** (`SleepLock`, `ExitWait`, `ExitWaitTheorems`, `ExitWaitOutcomes`): sleep locks over sleep, wakeup and
  kill; fork, exit and wait over wait_lock.
- **The disk driver** (`VirtioRing`, `VirtioTheorems`, `VirtioData`, `VirtioDisk`): the split virtqueue of sections 2.6
  and 5.2 of OASIS virtio 1.1, with a device that completes requests in any order, and the blocks it moves.
- **User programs** (`Regex`, `Grep`, `ShellGrammar`, `ShellTheorems`, `ShellSyntax`, `Shell`): grep's matcher and its
  line buffer; the shell's parser.

`Common` holds definitions that several modules share.

State machines come as a `Step` datatype, a predicate `Enabled`, a function `Do` and the runs they make; code that
updates fields or arrays comes as a class whose methods are proved against functions of the old state. Invariants that
range over maps are split into small named predicates.

## Findings

Properties the code is meant to have and does not, each with an input and the exact condition under which it holds.

- begin_op reserves MAXOPBLOCKS log blocks per call, but log_write also panics at `log.size - 1` (kernel/log.c:220), and
  mkfs gives the log LOGSIZE blocks with the header among them (mkfs/mkfs.c:25). Three calls within their budgets reach
  the panic while one still has budget left: `LogPanics.SmallLogPanics`. It is out of reach exactly when the area holds
  LOGSIZE blocks besides the header: `LogPanics.PanicIffSmallLog`.
- log_write looks for room before it looks for an earlier entry to absorb the write into (kernel/log.c:220-228). A call
  that has spent all its budget can panic on a block it has logged already, whatever the size: `LogPanics.RelogPanics`.
  In a large enough log that is the only way: `LogPanics.LatePanicOnlyRelogs`.
- Commit gets buffers for log slots while the blocks it is committing stay pinned, and fileread takes buffers without
  begin_op (kernel/file.c:122-124). When the pinned blocks and the buffers readers use fill the cache, commit dies in
  bget (kernel/bio.c:88): `LogStarve.BgetFailsExact`. With k processes that read outside calls, one buffer each, that
  is reachable exactly when the log area has a slot and min(LOGSIZE, size - 1) + k is at least NBUF:
  `LogStarve.StarvesIff`, the runs being built in `LogStarve.ReadersStarve`. In the image mkfs makes one reader is
  enough. No size of the log area avoids this panic and the early one of log_write both, and the sizes that allow both
  are listed: `LogStarve.EverySizePanics`.
- A removed directory that is still open takes new entries (kernel/sysfile.c:152 and 282): mkdir d, unlink d, create d/x
  leaves a file with a link count of one and no name that counts, `LinkRuns.RemovedDirectoryBreaksCounts`. The counts
  survive exactly when the directory has links: `LinkTheorems.MadeFileExact`, `LinkTheorems.CommitExact`,
  `LinkTheorems.MadeDirExact`.
- nlink is a short that sys_link increments without a bound (kernel/sysfile.c:145). A file can get 0x7FFF names in two
  directories, and the next link makes its count negative: `LinkWrap.LinkCountWraps`. The count stays right exactly when
  it is below 0x7FFF: `LinkTheorems.BeginExact`. mkdir cannot wrap its parent's count on a disk with few inodes:
  `LinkTheorems.DirLinksBounded`.
- morecore passes `nu * sizeof(Header)` to sbrk, which takes an int (user/umalloc.c:54). malloc(0xFFFFFFFF) asks for 16
  bytes and believes it got 2^28 + 1 units, `Heap.SbrkTruncates`; the amount is right exactly for requests of at most
  2^31 - 32 bytes: `Heap.SbrkExact`.
- wait tests killed(p) and then calls sleep, which takes p->lock only later (kernel/proc.c:497-503). A kill that falls
  between the two is missed: the victim goes to sleep and stays asleep until a child exits,
  `ExitWaitOutcomes.KillMissedReachable`. That is the only way to miss one: `ExitWaitOutcomes.KillMissed`.
- grep stops at the first line that does not fit its buffer (user/grep.c:17) and never writes a last line without a
  newline (user/grep.c:21). On an input without NULs it selects every matching line, whatever the pattern, exactly when
  all lines fit and the last one is finished: `Grep.GrepIffLinesFit`.

## Model

| member | source | states |
|---|---|---|
| `LogTheorems.StepKeepsInv` | xv6-riscv/kernel/log.c:69-235 | every step of any process, of commit, of a crash and of recovery keeps the invariant that ties disk, log header, pins, cache and history together |
| `LogTheorems.CrashAtomicity` | xv6-riscv/kernel/log.c:127-203 | in every reachable state, recovery from the disk gives every home block exactly the effect of a prefix of the logged writes, and that prefix holds each call's writes entirely or not at all |
| `LogTheorems.OnlyHeaderWriteCommits` | xv6-riscv/kernel/log.c:103-114 | one step, the header write, turns all recoverable contents into all logged ones; no other step of anybody changes what recovery would give |
| `LogTheorems.RecoveryRestores` | xv6-riscv/kernel/log.c:117-123 | however often the machine crashes while it recovers, a completed recovery leaves in every home block what the first crash promised, and an empty header |
| `LogTheorems.CommitMakesDurable` | xv6-riscv/kernel/log.c:147-175 | when the call that commits returns from end_op, everything logged so far is in its home block and survives a crash |
| `LogTheorems.NothingPending` | xv6-riscv/kernel/log.c:147-175 | whenever no call runs and nothing commits or recovers, the log is empty and every home block on disk holds what was last logged: the last call out commits before it returns |
| `LogTheorems.LoggedIsNewest` | xv6-riscv/kernel/log.c:215-235 | what a call puts into a buffer and logs becomes the newest contents of that block and of no other, in the name of that call |
| `LogTheorems.CallsBeginAndEnd` | xv6-riscv/kernel/log.c:127-175 | begin_op makes the caller a running call, end_op ends it and no other, and the last one out becomes the committer |
| `LogTheorems.CommitAdvances` | xv6-riscv/kernel/log.c:117-203 | commit and recovery end: each of their steps takes one off what is left, nobody else's step adds to it but an end_op that commits, and nothing is left only in an idle log or before recovery has read the header |
| `LogTheorems.BreadReturnsLatest` | xv6-riscv/kernel/bio.c:93-103 | cache and log together act as an array of blocks: whoever holds a clean buffer sees what was last logged for the block |
| `LogTheorems.LoggedStaysCached` | xv6-riscv/kernel/log.c:229-233 | until it is installed a logged block stays cached, valid and referenced, so bget cannot recycle it |
| `LogTheorems.HomeChangesOnlyAfterCommit` | xv6-riscv/kernel/log.c:69-83 | a home block changes on disk only while the on-disk header names it |
| `LogTheorems.SlotsStayInLog` | xv6-riscv/kernel/log.c:179-191 | commit and recovery address log slots inside the log area, apart from header and home blocks, whatever its size |
| `LogTheorems.GroupCommit` | xv6-riscv/kernel/log.c:127-175 | a commit runs only while no call is in progress, and the other way round |
| `LogBudget.StepKeepsBudget` | xv6-riscv/kernel/log.c:133-135 | while calls log at most MAXOPBLOCKS distinct blocks each, every step keeps logged plus promised blocks within LOGSIZE |
| `LogBudget.RoomForRunningCalls` | xv6-riscv/kernel/log.c:133-135 | in every such run the log has room for all that running calls may still write |
| `LogBudget.EnoughLogNoPanic` | xv6-riscv/kernel/log.c:220-221 | with a slot for each of LOGSIZE blocks besides the header, a call with budget left never panics in log_write |
| `LogPanics.SmallLogPanics` | xv6-riscv/kernel/log.c:220-221 | in a smaller area such a panic is reached, by a run built for every such size |
| `LogPanics.PanicIffSmallLog` | xv6-riscv/mkfs/mkfs.c:25 | it is reachable if and only if the area is smaller than LOGSIZE + 1 |
| `LogPanics.RelogPanics` | xv6-riscv/kernel/log.c:220-228 | in a large enough area a call within its budget can still panic on a block it logged before |
| `LogPanics.LatePanicOnlyRelogs` | xv6-riscv/kernel/log.c:220-228 | and only then: its budget is spent, the block is one of its own, and the log is full |
| `LogStarve.BgetFailsExact` | xv6-riscv/kernel/bio.c:59-89 | in every reachable state of commit its bget panics if and only if the pinned blocks and those some process uses fill the cache, its own block not among them |
| `LogStarve.StarvedNeeds` | xv6-riscv/kernel/bio.c:76-88 | a commit that starves, within budgets and with readers using one buffer each, needs a log slot and enough pinned blocks and readers for all buffers |
| `LogStarve.ReadersStarve` | xv6-riscv/kernel/file.c:122-124 | with that many readers there is a run to it, for every size of the log area |
| `LogStarve.StarvesIff` | xv6-riscv/kernel/param.h:10-11 | commit can run out of buffers beside k readers if and only if the log area has a slot and min(LOGSIZE, size - 1) + k is at least NBUF |
| `LogStarve.EverySizePanics` | xv6-riscv/mkfs/mkfs.c:25 | every size of the log area allows the early log_write panic or, even without readers, the exhausted cache; with k readers exactly the sizes from 2 to LOGSIZE with size - 1 + k at least NBUF allow both |
| `Log.Log.constructor` | xv6-riscv/kernel/log.c:55-65 | initlog over any disk passes through the images of a recovery and ends with an empty log |
| `Log.Log.WriteLog` | xv6-riscv/kernel/log.c:179-191 | one image per log slot, each the last with one more logged block copied; cached contents stay |
| `Log.Log.InstallTrans` | xv6-riscv/kernel/log.c:69-83 | one image per home block, copied from its slot; buffers agree with the disk afterwards and pins are gone unless recovering |
| `Log.Log.Commit` | xv6-riscv/kernel/log.c:194-203 | the images of slots, header, homes and cleared header in that order; nothing when the log is empty |
| `Log.Log.RecoverFromLog` | xv6-riscv/kernel/log.c:117-123 | the images of installing whatever header the disk holds, then of clearing it |
| `Log.Log.BeginOp` | xv6-riscv/kernel/log.c:127-142 | admits a call exactly when no commit runs and the log has room for MAXOPBLOCKS blocks of each call |
| `Log.Log.LogWrite` | xv6-riscv/kernel/log.c:215-235 | refuses exactly on a full log or outside a call; otherwise the block is in the header once and pinned |
| `Log.Log.EndOp` | xv6-riscv/kernel/log.c:147-175 | the last call out commits, and each image of that commit is all-or-nothing under any crashes |
| `Log.CommitIsAtomic` | xv6-riscv/kernel/log.c:117-203 | crash after any write of commit, then after any writes of any number of recoveries: the recovery that completes leaves all home blocks as before the transaction or all as after it, and which of the two depends only on the header write |
| `Log.RecoveryImageRecovers` | xv6-riscv/kernel/log.c:117-123 | every image of a recovery recovers to what its first image does |
| `Bio.UnlinkKeeps` | xv6-riscv/kernel/bio.c:128-129 | taking a buffer out of the ring leaves the others linked both ways in the same order |
| `Bio.PushKeeps` | xv6-riscv/kernel/bio.c:130-133 | putting one behind the head keeps the ring |
| `Bio.MovedOrder` | xv6-riscv/kernel/bio.c:117-137 | the ring stays sorted by time of last release |
| `Bio.BufferCache.constructor` | xv6-riscv/kernel/bio.c:37-53 | binit makes one ring of all buffers, unreferenced |
| `Bio.BufferCache.Victim` | xv6-riscv/kernel/bio.c:76-87 | the backward scan finds the unreferenced buffer released longest ago, or none exactly when all are referenced |
| `Bio.BufferCache.Bget` | xv6-riscv/kernel/bio.c:59-89 | the one buffer of the block with one more reference, or the least recently released free one, or the panic exactly when neither exists; a block never has two buffers |
| `Bio.BufferCache.Brelse` | xv6-riscv/kernel/bio.c:117-137 | one reference less, and the last one moves the buffer to the front |
| `Bio.BufferCache.Bpin` | xv6-riscv/kernel/bio.c:140-144 | one reference more on that buffer only |
| `Bio.BufferCache.Bunpin` | xv6-riscv/kernel/bio.c:147-151 | one reference less on that buffer only |
| `Bio.BufferCache.CommitTraffic` | xv6-riscv/kernel/log.c:69-203 | while no other process holds a buffer, all of commit's use of the cache goes through if and only if fewer blocks are pinned than there are buffers, and leaves none referenced |
| `Fs.Fs.Balloc` | xv6-riscv/kernel/fs.c:66-88 | a zeroed data block that was free and nobody owns, or 0 exactly on a full bitmap |
| `Fs.Fs.Bmap` | xv6-riscv/kernel/fs.c:383-421 | the block of the file, allocated if missing, direct or through the indirect block; no other file's blocks move, ownership stays unique, at most two log blocks, or four with the indirect one, are spent, and every block and bitmap bit that changed is among them |
| `Fs.Fs.Writei` | xv6-riscv/kernel/fs.c:506-539 | the new contents are the old ones with the bytes laid over them, all other files keep theirs, short only on a full disk or a faulting source; every block, bitmap bit and inode that differs afterwards has been logged, and a chunk of filewrite's size stays within one reservation |
| `Fs.Fs.Readi` | xv6-riscv/kernel/fs.c:472-496 | exactly the bytes of the file in range, nothing changed: no allocation on the way |
| `Fs.Fs.Itrunc` | xv6-riscv/kernel/fs.c:426-453 | the file is empty, exactly its blocks are free again, every other file is untouched; it logs exactly their bitmap blocks and the inode, so all that changed is logged, and overdraws its reservation if and only if those bitmap blocks use it up, never with fewer bitmap blocks on the disk than MAXOPBLOCKS |
| `Fs.Fs.Bfree` | xv6-riscv/kernel/fs.c:92-105 | one bit cleared, and the bitmap block logged |
| `Fs.Fs.FileWrite` | xv6-riscv/kernel/file.c:135-181 | chunk after chunk the whole buffer is laid over the file and the offset moves past what got through; the file system goes from old to new by transactions, each of which has logged all it changed and none of which overdraws its reservation |
| `Fs.ChunkFits` | xv6-riscv/kernel/file.c:149-158 | the chunk size of filewrite costs fewer than MAXOPBLOCKS log blocks for any offset |
| `FsBlocks.ReadRound` | xv6-riscv/kernel/fs.c:472-496 | the bytes gathered block by block are a slice of the contents |
| `LinkTheorems.BeginKeeps` | xv6-riscv/kernel/sysfile.c:138-147 | the first half of link keeps the invariant below 0x7FFF links |
| `LinkTheorems.BeginExact` | xv6-riscv/kernel/sysfile.c:145 | counts stay right if and only if the inode has fewer than 0x7FFF links |
| `LinkTheorems.CommitKeeps` | xv6-riscv/kernel/sysfile.c:149-157 | entering the link keeps counts, unique names and the tree of directories |
| `LinkTheorems.CommitExact` | xv6-riscv/kernel/sysfile.c:152 | counts stay right if and only if the directory has links |
| `LinkTheorems.AbortKeeps` | xv6-riscv/kernel/sysfile.c:163-169 | the failure path undoes the count, whatever happened in between |
| `LinkTheorems.UnlinkSafe` | xv6-riscv/kernel/sysfile.c:215-216 | what unlink finds has links and is not the directory itself: the panic is out of reach |
| `LinkTheorems.UnlinkFileKeeps` | xv6-riscv/kernel/sysfile.c:189-243 | unlinking a file keeps the invariant |
| `LinkTheorems.UnlinkDirKeeps` | xv6-riscv/kernel/sysfile.c:189-243 | removing an empty directory does too: it had one name, and its parent loses the ".." |
| `LinkTheorems.MadeFileKeeps` | xv6-riscv/kernel/sysfile.c:246-302 | create of a file or device keeps the invariant in a directory with links |
| `LinkTheorems.MadeFileExact` | xv6-riscv/kernel/sysfile.c:282 | and only in one |
| `LinkTheorems.MadeDirKeeps` | xv6-riscv/kernel/sysfile.c:246-302 | mkdir keeps the invariant; the parent's count grows by the new ".." |
| `LinkTheorems.MadeDirExact` | xv6-riscv/kernel/sysfile.c:276-289 | counts stay right if and only if the parent's count is positive and below 0x7FFF |
| `LinkTheorems.DirLinksBounded` | xv6-riscv/kernel/sysfile.c:287 | a directory has at most one link more than there are inodes, so mkdir cannot wrap its count on such a disk |
| `LinkTheorems.ReplacedKeeps` | xv6-riscv/kernel/sysfile.c:295-301 | an inode without links may be freed, or left as a failed create leaves it |
| `LinkRuns.UnlinkNoPanic` | xv6-riscv/kernel/sysfile.c:207-220 | what unlink checks is enough: it never panics and never changes a removed directory |
| `LinkRuns.StepKeepsGood` | xv6-riscv/kernel/sysfile.c:124-302 | every step of link, unlink and create keeps the invariant |
| `LinkRuns.RunKeepsCounts` | xv6-riscv/kernel/sysfile.c:124-302 | so does every run, the halves of link interleaved with anything |
| `LinkRuns.FreshRunKeepsCounts` | xv6-riscv/kernel/sysfile.c:124-302 | in every run from an empty file system each count is the number of names plus the links in progress, and no directory holds a name twice |
| `LinkRuns.RemovedDirectoryBreaksCounts` | xv6-riscv/kernel/sysfile.c:282 | the run that breaks the counts in a removed directory |
| `LinkLookup.LinkNames` | xv6-riscv/kernel/sysfile.c:149-157 | after link the new name means the inode, every other name in every directory means what it did, and no path loses its meaning |
| `LinkLookup.CreateNames` | xv6-riscv/kernel/sysfile.c:246-302 | after create the inode has the type asked for, the new name means it, every name in every other place means what it did, and no path loses its meaning |
| `LinkLookup.MadeDirNames` | xv6-riscv/kernel/sysfile.c:276-289 | a new directory holds "." for itself, ".." for its parent, and no other name |
| `LinkLookup.UnlinkNames` | xv6-riscv/kernel/sysfile.c:189-243 | after unlink the name means nothing and every other name in every directory what it did |
| `LinkLookup.PathToNew` | xv6-riscv/kernel/fs.c:651-684 | every path that led to the directory leads, with the new name behind it, to the new inode, and led nowhere before |
| `LinkLookup.PathsExtend` | xv6-riscv/kernel/fs.c:651-684 | if no name loses its meaning, no path does |
| `LinkLookup.LinkUndone` | xv6-riscv/kernel/sysfile.c:122-243 | link and then unlink of the new name leaves types, link counts and the meaning of every name as they were |
| `LinkLookup.CreateUndone` | xv6-riscv/kernel/sysfile.c:189-302 | so do create of a file, device or directory, unlink of it, and the last iput |
| `LinkLookup.SameTreePaths` | xv6-riscv/kernel/fs.c:651-684 | and then every path means what it did |
| `LinkPaths.PartsOfJoin` | xv6-riscv/kernel/fs.c:622-645 | the elements of a path that spells names are those names |
| `LinkPaths.Skipelem` | xv6-riscv/kernel/fs.c:622-645 | the next element, cut to DIRSIZ characters, and the rest of the path, which is empty exactly when no element is left |
| `LinkWrap.LinkCountWraps` | xv6-riscv/kernel/sysfile.c:145 | a run to a file with 0x7FFF names, in directories no larger than a file can be, whose next link wraps its count |
| `Links.Links.Dirlookup` | xv6-riscv/kernel/fs.c:552-575 | the first entry in use whose name agrees in DIRSIZ bytes |
| `Links.Links.Namex` | xv6-riscv/kernel/fs.c:651-684 | the inode the elements of the path lead to from the root or the current directory, or 0; with parent set the directory before the last element, and that element |
| `Links.Links.Dirlink` | xv6-riscv/kernel/fs.c:580-606 | the entry in the first empty place or at the end, unless the name exists or there is no block for it |
| `Links.Links.Isdirempty` | xv6-riscv/kernel/sysfile.c:174-186 | true exactly when no entry from the third on is in use |
| `Links.Links.LinkBegin` | xv6-riscv/kernel/sysfile.c:138-147 | refuses directories; otherwise counts the link, rightly if and only if the count does not wrap |
| `Links.Links.LinkEnd` | xv6-riscv/kernel/sysfile.c:149-169 | enters the link, after which the name means the inode and every other name what it did, or takes the count back; each with the exact condition under which counts stay right |
| `Links.Links.Unlink` | xv6-riscv/kernel/sysfile.c:189-243 | succeeds exactly for a name that exists, is not a dot name and names no directory in use; then the name means nothing and every other name what it did; keeps the invariant on every path |
| `Links.Links.Ialloc` | xv6-riscv/kernel/fs.c:199-219 | the first free inode, or none exactly when there is none |
| `Links.Links.Create` | xv6-riscv/kernel/sysfile.c:246-302 | the existing file, a refusal, no inode, no room with the inode freed again, or the new node, of the type asked for and found under the name, all other names as they were; exact conditions for each |
| `Links.Links.IputLast` | xv6-riscv/kernel/fs.c:337-362 | the last reference to an inode without links frees it and keeps the invariant |
| `VmTree.TranslateIsLookup` | xv6-riscv/kernel/vm.c:88-105 | the three-level walk computes the flat map the tree stands for |
| `VmTree.MakePteOk` | xv6-riscv/kernel/vm.c:161 | an entry made of a page and permissions is present, is a leaf exactly if one of R, W and X is set, and gives both back |
| `VmTree.ExtendedShrunk` | xv6-riscv/kernel/vm.c:230-253 | unmapping what was added leaves at most interior tables more |
| `VmCount.Census` | xv6-riscv/kernel/kalloc.c:17-82 | free pages, pages in caller's hands, and pages that are tables or memory add up to all pages |
| `VmCount.Conserved` | xv6-riscv/kernel/vm.c:88-337 | a call that leaks nothing takes from the free list exactly as many pages as it adds to tables and memory |
| `VmCount.WalkExact` | xv6-riscv/kernel/vm.c:88-105 | walk with alloc succeeds if and only if as many pages are free as it lacks tables |
| `Vm.Kernel.constructor` | xv6-riscv/kernel/kalloc.c:27-40 | kinit puts every page of the range on the free list, once |
| `Vm.Kernel.Kalloc` | xv6-riscv/kernel/kalloc.c:69-82 | the head of the free list, or 0 exactly when it is empty |
| `Vm.Kernel.Kfree` | xv6-riscv/kernel/kalloc.c:47-63 | the page a caller holds becomes the head |
| `Vm.Kernel.Walk` | xv6-riscv/kernel/vm.c:88-105 | the level-0 table of a page or 0; tables may be added, but nothing is mapped otherwise than before; with alloc it is 0 exactly when the missing tables outnumber the free pages |
| `Vm.Kernel.Mappages` | xv6-riscv/kernel/vm.c:145-168 | exactly the pages of the range map to consecutive pages, all of them, or a prefix exactly when the tables the range lacks outnumber the free pages; nothing leaks |
| `Vm.Kernel.Uvmunmap` | xv6-riscv/kernel/vm.c:175-196 | exactly those mappings go, and if asked exactly those pages are free |
| `Vm.Kernel.Uvmdealloc` | xv6-riscv/kernel/vm.c:260-271 | the same for the pages between the rounded sizes |
| `Vm.Kernel.Uvmalloc` | xv6-riscv/kernel/vm.c:230-253 | fresh zeroed pages for the whole range, or no new mapping at all; it returns 0 exactly when the pages and tables it lacks outnumber the free pages, and leaks nothing |
| `Vm.Kernel.Uvmcopy` | xv6-riscv/kernel/vm.c:310-337 | every page of the parent copied to a page that was free, with its permissions, or no new mapping; it fails exactly when the pages and tables the child lacks outnumber the free pages, and leaks nothing |
| `Vm.Kernel.Freewalk` | xv6-riscv/kernel/vm.c:276-291 | exactly the tables below go to the free list |
| `Vm.Kernel.Uvmfree` | xv6-riscv/kernel/vm.c:296-301 | everything the table had is free, nothing leaks, and no other table or page changes |
| `Vm.Kernel.Uvmcreate` | xv6-riscv/kernel/vm.c:201-209 | an empty table in a page that was free, or 0 exactly when none is |
| `Heap.FreedSound` | xv6-riscv/user/umalloc.c:25-44 | joining with either neighbour keeps one address-ordered ring without adjacent blocks that partitions the memory with the live blocks |
| `Heap.GrownSound` | xv6-riscv/user/umalloc.c:47-61 | so does new memory from sbrk |
| `Heap.TakenSound` | xv6-riscv/user/umalloc.c:75-85 | so does cutting a block off the tail of a free one |
| `Heap.PayloadFits` | xv6-riscv/user/umalloc.c:70 | the units asked for hold the bytes requested behind the header, and waste less than one unit |
| `Heap.SbrkExact` | xv6-riscv/user/umalloc.c:54 | sbrk is asked for the right amount if and only if the request is at most 2^31 - 32 bytes |
| `Heap.SbrkTruncates` | xv6-riscv/user/umalloc.c:54 | the largest request asks for 16 bytes |
| `Umalloc.Allocator.FindBelow` | xv6-riscv/user/umalloc.c:30-32 | the search stops at the node below the block wherever it starts |
| `Umalloc.Allocator.Free` | xv6-riscv/user/umalloc.c:25-44 | the block is free, the others are live as before and nothing inside them is written |
| `Umalloc.Allocator.Morecore` | xv6-riscv/user/umalloc.c:47-61 | a free block of the size asked for, or null and nothing changed |
| `Umalloc.Allocator.Search` | xv6-riscv/user/umalloc.c:74-86 | once round the ring from wherever freep is: a block that fits, found if and only if there is one |
| `Umalloc.Allocator.FindBlock` | xv6-riscv/user/umalloc.c:74-88 | the loop ends: a block that fits, after at most one morecore, or none exists |
| `Umalloc.Allocator.Malloc` | xv6-riscv/user/umalloc.c:64-90 | a block apart from all live ones whose bytes behind the header are at least those asked for and fewer than a unit more; the heap grows only by a morecore, of 4096 units or the block's size; null exactly when no free block fits and sbrk fails |
| `SleepLock.StepKeepsInv` | xv6-riscv/kernel/sleeplock.c:22-41 | every step of acquiresleep, releasesleep, sleep, wakeup, kill and the scheduler keeps the invariant |
| `SleepLock.MutualExclusion` | xv6-riscv/kernel/sleeplock.c:22-31 | at most one process holds the sleep lock, the one whose pid it records |
| `SleepLock.NoLostWakeup` | xv6-riscv/kernel/proc.c:605-649 | with the lock free and nobody inside it, no process sleeps on it or is about to |
| `SleepLock.TestOutcome` | xv6-riscv/kernel/sleeplock.c:22-31 | acquiresleep takes the lock exactly when nobody has it, recording its pid, and otherwise goes to sleep |
| `SleepLock.ClearFrees` | xv6-riscv/kernel/sleeplock.c:34-41 | releasesleep leaves the lock to nobody |
| `SleepLock.CallsStart` | xv6-riscv/kernel/sleeplock.c:22-41 | a process outside a call can always start one, which does not change who has the lock |
| `SleepLock.StepDescends` | xv6-riscv/kernel/sleeplock.c:22-41 | each call is a bounded number of its own steps from returning or from switching away |
| `SleepLock.NoDeadlock` | xv6-riscv/kernel/sleeplock.c:22-41 | while a process is inside a call and not asleep, some such process can go on |
| `SleepLock.NobodyStranded` | xv6-riscv/kernel/proc.c:605-649 | whoever waits for a lock that nobody has can be scheduled, or somebody is still at work inside a call |
| `ExitWaitTheorems.StepKeepsInv` | xv6-riscv/kernel/proc.c:351-505 | every step of fork, exit, wait, kill and the scheduler keeps the invariant of locks, parents, zombies and pids |
| `ExitWaitTheorems.NoSleepOverZombie` | xv6-riscv/kernel/proc.c:461-505 | no parent sleeps in wait, or is bound to, over a zombie child |
| `ExitWaitTheorems.ZombieHasParent` | xv6-riscv/kernel/proc.c:402-456 | every zombie has a parent that has not exited |
| `ExitWaitTheorems.ReapOnce` | xv6-riscv/kernel/proc.c:473-487 | a slot is freed only when its process has left its CPU for good, and no pid is returned twice |
| `ExitWaitOutcomes.StepKeepsKids` | xv6-riscv/kernel/proc.c:461-505 | every step keeps that a scan in wait knows whether it has passed a child, and that whoever sleeps in wait has one |
| `ExitWaitOutcomes.ScanOutcome` | xv6-riscv/kernel/proc.c:472-504 | in every reachable state a scan in wait returns -1 exactly at the end of the table with no child or killed, goes to sleep exactly there with a child and not killed, and otherwise looks at the next process |
| `ExitWaitOutcomes.SleeperHasChild` | xv6-riscv/kernel/proc.c:461-505 | whoever sleeps in wait has a child |
| `ExitWaitOutcomes.StepDescends` | xv6-riscv/kernel/proc.c:351-505 | every step inside fork, exit or wait brings the end of the call, or the switch to another process, nearer |
| `ExitWaitOutcomes.NoDeadlock` | xv6-riscv/kernel/proc.c:351-505 | in every reachable state with a process busy inside fork, exit or wait, some process can go on |
| `ExitWaitOutcomes.ExitNeverReturns` | xv6-riscv/kernel/proc.c:402-456 | whoever calls exit is exiting until a parent frees its slot |
| `ExitWaitOutcomes.ReachableBack` | xv6-riscv/kernel/proc.c:605-635 | chan is set only around sleep, so that no wakeup is taken for an old one |
| `ExitWaitOutcomes.YieldUndone` | xv6-riscv/kernel/proc.c:572-579 | being preempted and scheduled again changes nothing |
| `ExitWaitOutcomes.PidsUsedUp` | xv6-riscv/kernel/proc.c:98-107 | every attempt to fork uses up one pid, the child's if it succeeds, and nothing else does |
| `ExitWaitOutcomes.KillWakes` | xv6-riscv/kernel/proc.c:653-673 | kill marks its victim, takes it out of sleep, and changes nothing else |
| `ExitWaitOutcomes.KillMissed` | xv6-riscv/kernel/proc.c:497-503 | a killed process comes to sleep in wait if and only if the kill falls between wait's test and sleep's acquire |
| `ExitWaitOutcomes.KillMissedReachable` | xv6-riscv/kernel/proc.c:497-503 | a run in which that happens |
| `VirtioTheorems.StepKeepsInv` | xv6-riscv/kernel/virtio_disk.c:216-327 | every step of drivers and device keeps the invariant of rings, chains and buffers |
| `VirtioTheorems.DescriptorPartition` | xv6-riscv/kernel/virtio_disk.c:157-213 | every descriptor is free or in exactly one chain in flight |
| `VirtioTheorems.NoPanics` | xv6-riscv/kernel/virtio_disk.c:295-327 | whatever order the device completes in and whatever status it reports, the interrupt handler finds a request in flight and panics if and only if the device reported that one as failed; free_desc never panics |
| `VirtioTheorems.CompletesOnce` | xv6-riscv/kernel/virtio_disk.c:216-327 | each request that succeeds is handled once, before its process goes on, and none is lost |
| `VirtioData.FetchAdvances` | xv6-riscv/kernel/virtio_disk.c:268-277 | the device takes the oldest request that is queued, and no other moves |
| `VirtioData.IntrAdvances` | xv6-riscv/kernel/virtio_disk.c:312-324 | the interrupt handler takes the oldest completion, a success, and no other moves |
| `VirtioData.TransferIs` | xv6-riscv/kernel/virtio_disk.c:240-262 | the chain tells the device what the request asked: type, sector, buffer, length and who may write |
| `VirtioData.MoveKeeps` | xv6-riscv/kernel/virtio_disk.c:216-327 | every step of drivers, device and processor keeps the invariant of buffers, blocks and history |
| `VirtioData.Linearizable` | xv6-riscv/kernel/virtio_disk.c:216-289 | whatever order the device completes in, the blocks are those at the start after the requests that took effect, one after the other, each once; a write put what its buffer held at submission, and a read got what those before it left |
| `VirtioData.EffectInTime` | xv6-riscv/kernel/virtio_disk.c:216-289 | a request takes effect after its submission and before virtio_disk_rw returns, when its buffer holds what it put or got |
| `VirtioRing.ThreeIffCount` | xv6-riscv/kernel/virtio_disk.c:202-213 | alloc3_desc succeeds if and only if three descriptors are free |
| `VirtioDisk.Disk.AllocDesc` | xv6-riscv/kernel/virtio_disk.c:157-166 | takes the first free descriptor, or -1 exactly when there is none |
| `VirtioDisk.Disk.Alloc3Desc` | xv6-riscv/kernel/virtio_disk.c:202-213 | three descriptors, or the free flags as they were and the free descriptors cleared |
| `VirtioDisk.Disk.Submit` | xv6-riscv/kernel/virtio_disk.c:216-277 | is the machine's submit step, header, sector, flags and lengths included; or it waits for descriptors and nothing but free descriptors has changed, cleared |
| `VirtioDisk.Disk.Intr` | xv6-riscv/kernel/virtio_disk.c:295-327 | is as many interrupt steps as the device has entries, across the wrap of the indices |
| `VirtioDisk.Disk.FreeChainFrom` | xv6-riscv/kernel/virtio_disk.c:186-197 | frees the whole chain as the machine does |
| `VirtioDisk.Disk.Finish` | xv6-riscv/kernel/virtio_disk.c:284-289 | clears the request and frees its chain |
| `VirtioDisk.RoundIsStep` | xv6-riscv/kernel/virtio_disk.c:312-324 | a round of the handler is the machine's interrupt step, panics included |
| `Regex.AdmitsStar` | xv6-riscv/user/grep.c:98-105 | cutting the text into one piece per token agrees with matchstar's search |
| `Regex.Matchhere` | xv6-riscv/user/grep.c:84-95 | true if and only if the text begins with a match in the declarative sense |
| `Regex.Matchstar` | xv6-riscv/user/grep.c:98-105 | true if and only if some number of fitting characters leaves a match |
| `Regex.Match` | xv6-riscv/user/grep.c:72-81 | true if and only if the text contains a match |
| `Grep.SelectedConcat` | xv6-riscv/user/grep.c:11-34 | reading in two pieces selects what reading at once does |
| `Grep.GrepIffLinesFit` | xv6-riscv/user/grep.c:17-21 | grep selects every matching line of its input, whatever the pattern, if and only if every line fits the buffer and the last one ends in a newline |
| `Grep.Grepper.Lines` | xv6-riscv/user/grep.c:21-28 | the finished lines of the buffer that match, and where the unfinished one begins |
| `Grep.Grepper.Grep` | xv6-riscv/user/grep.c:11-34 | however the reads are cut, exactly the matching lines up to the first that does not fit |
| `ShellTheorems.RoundTrip` | xv6-riscv/user/sh.c:329-447 | parsing the printed form of any tree with fewer than MAXARGS words per command gives the tree back |
| `ShellTheorems.ParsedIffGood` | xv6-riscv/user/sh.c:329-447 | the trees some line parses to are exactly those |
| `ShellSyntax.ParseIsMeaning` | xv6-riscv/user/sh.c:329-447 | a line parses to a tree if and only if it spells a form of the language, with words and redirections in any order, that stands for the tree; if it spells none, parsing fails |
| `ShellSyntax.OneMeaning` | xv6-riscv/user/sh.c:329-447 | no line has two meanings |
| `ShellSyntax.WordsInOrder` | xv6-riscv/user/sh.c:376-446 | the words of a parsed tree are the line's, in order, other than those behind a redirection sign, and its redirections are the line's, in order |
| `Shell.Parser.Gettoken` | xv6-riscv/user/sh.c:267-309 | the next token of the line, its text between the two pointers, and the cursor behind it |
| `Shell.Parser.Peek` | xv6-riscv/user/sh.c:312-321 | whether the next token is one of the given symbols; no token is consumed |
| `Shell.Parser.Parseredirs` | xv6-riscv/user/sh.c:376-398 | the redirections ahead, in order, or the missing file |
| `Shell.Parser.Parseargs` | xv6-riscv/user/sh.c:427-446 | words and redirections of a command, or its syntax error, or too many words |
| `Shell.Parser.Parseblock` | xv6-riscv/user/sh.c:401-414 | a parenthesised line and its redirections, or the missing parenthesis |
| `Shell.Parser.Parseexec` | xv6-riscv/user/sh.c:417-447 | agrees with the grammar, errors included |
| `Shell.Parser.Parsepipe` | xv6-riscv/user/sh.c:363-373 | agrees with the grammar, errors included |
| `Shell.Parser.Parseline` | xv6-riscv/user/sh.c:346-360 | agrees with the grammar, errors included, and ends on every input |
| `Shell.Nulterminate` | xv6-riscv/user/sh.c:451-494 | writes NULs behind the tokens and nowhere else |
| `Shell.CmdReads` | xv6-riscv/user/sh.c:451-494 | after that every argv and file pointer reads as exactly its token |
| `Shell.Parsecmd` | xv6-riscv/user/sh.c:329-343 | the tree runcmd then sees is the one the grammar gives, and for a printed tree it is that tree; on an error the line is as it was |

## Left out

- The thread system calls, the timer, traps, exec, pipes, the console, the UART and the plumbing of system calls.
- Spinlocks are atomic acquisitions and releases; interrupts and memory ordering are not modelled.
- Fairness: that a process that can go on eventually does, or that begin_op is eventually admitted. That calls are
  finite and that some process can always go on is proved for sleep locks, fork, exit and wait.
- Links.Links.Namex: walks the tree in one state, while the kernel locks one directory at a time.
- The setup of the virtio device through its registers; a request that the device reports as failed moves no data here.
- That unlink, create and link log at most MAXOPBLOCKS blocks each: the runs of LogBudget assume it of their calls; it is
  proved for the chunks of filewrite, and for itrunc with its exact condition.
- That a process reads outside calls with one buffer at a time is a condition on the runs of LogOrder, not derived from
  the code of readi.
- mkfs, the inode cache's reference counts (whether a reference is the last one is a parameter) and inode
  locking.
- Whether a write finds a block is a parameter of `Links.Links.Dirlink` and `Links.Links.Create`, not the state of `Fs`.
- Fs.Fs.FileWrite: assumes that nobody else writes the file between its chunks.
- Fs.Fs.Writei: a source that faults is a source that ends early; the addresses themselves are not modelled.
- Umalloc.Allocator.Malloc: stops with the outcome Truncated where sbrk is asked for a truncated amount; what the
  program does with the block it then believes to have is not modelled.
- Umalloc.Allocator.Free: assumes that the program writes only inside its own blocks, and a heap of fewer than 2^32
  units, as physical memory is 128 MiB.
- Vm.Kernel.Mappages: the panics for an empty range and for a page that is mapped already are excluded by its
  preconditions, as is a permission without R, W and X, which no caller passes; so are the panics of
  Vm.Kernel.Uvmunmap, Vm.Kernel.Uvmcopy and Vm.Kernel.Freewalk.
- Grep.Grepper.Grep: assumes an input without NUL bytes, at which the C string functions would stop.
- ExitWaitTheorems.ReapOnce: pids are unbounded, while nextpid is an int that wraps.
- Shell.Parser.Parseargs: command trees are values, so the words that the C code adds to a command already wrapped in
  redirections are collected first and wrapped at the end.
- The shell's running of commands, and grep's handling of its arguments.
- The sizes of blocks and inodes are those of fs.h, not symbolic.
