# DeepJIT caching runtime: a verified model

This project models the host-side caching runtime of DeepJIT in Dafny 4.11 and proves what its protocols and
formats promise. `dafny verify dfyconfig.toml` checks all of it.

DeepJIT compiles kernels and keeps the results in a memory cache over a disk cache. Many processes on many machines
may share the cache roots. A process builds in a private temporary directory, writes a marker file, syncs everything
and publishes the directory with one rename. I/O runs on a worker thread with a timeout; a timed-out task goes on by
itself. The model follows this in five parts.

1. **Disk cache.** `Publication.dfy` is the protocol, one file operation or one decision per step, for any number of
   processes, requests, kills and crashes of one machine or all; `ArtifactImage.dfy` is a directory with what a crash
   can leave of it. `PublicationSafety.dfy` and `PublicationCommit.dfy` hold the invariant, `PublicationRuns.dfy`,
   `PublicationOwnership.dfy`, `FallbackOrder.dfy`, `Origin.dfy`, `Quarantine.dfy`, `LoaderBoot.dfy` and
   `Transparency.dfy` what follows for every run. `CacheControl.dfy` has `entry`, `commit` and the retry loop as the
   program runs them, under the rules of `EntryRules.dfy` that the protocol meets too; `FsTree.dfy` has the directory
   walks, and `Runtime.dfy` the key and the memory cache.
2. **Executor.** `Executor.dfy` gives every thread a program counter, with separate steps for locking, waiting,
   notifying and timeouts. `ExecutorSafety.dfy` holds the invariant; `ExecutorRuns.dfy` and `ExecutorProgress.dfy` the
   results.
3. **Precompiler.** `Precompiler.dfy`: the queue, its workers and the error report.
4. **Content key.** `Words.dfy` and `Fnv.dfy` (the hash on 64-bit words), `IncludeScan.dfy`, `IncludeTree.dfy` and
   `IncludeParser.dfy` (the memoised include parser), `CacheKey.dfy` (the components of a key).
5. **Formats.** `ElfNames.dfy`, `ArgPacking.dfy`, `JsonText.dfy` with the reader `JsonReader.dfy`, and
   `AicpuModules.dfy` for the lifetime of device modules.

The parts meet in `Transparency.CacheTransparencyFnv`: a returned binary is the output of the build that its entry
holds, which a request of the run made for the same tag and key. It is what a fresh build gives, unless the subjects
of these two requests exhibit an explicit collision of the hash. One case besides collisions is named there: a kernel
called `aicpu_bootstrap` whose four key components are those of the AICPU loader shares the loader's entry.

What the model takes for granted:

- Temporary names are fresh, and no process outside this protocol writes below the cache roots.
- A compiler command ends well, fails, or times out and may go on; for one input it writes the same output file
  wherever it runs, where `Transparency.Deterministic` is required. Its other files may depend on the temporary directory.
- Marked entries that exist at the start are complete (README.md:312 of the repository). The output file that loading
  reads is not the marker.
- `rename` replaces an absent or empty target and refuses a non-empty one, as `rename()` does in the System Interfaces
  volume of POSIX.1-2017. A crash of all machines may lose or bring back any directory entry above an artifact, and
  any unsynced file or entry inside one. A crash of one machine may do the latter to directories that no other machine
  has in hand, and leaves the names that others see.
- Threads that load AICPU kernels at the same time do not wait for each other: each that finds no bootstrap builds
  the loader, since `load` takes no lock (include/deep_jit/backend/ascend/backend.hpp:173-176).
- The build of the AICPU loader starts with an I/O task (`LoaderBoot.LoaderWrites`), as `build_loader` does.
- Cache fallback is enabled.
- Files that the include parser reads do not change while a process runs.

Two properties hold under a condition, which is proved to be exact.

- A root's timeout count stays within 3 with one request at a time, and within k + 2 with k of them, if and only if
  the process cannot come to build the AICPU loader (`LoaderBoot.ExactBound`). `build_loader` runs inside an attempt of
  `compile_impl` and charges the same cache; an I/O timeout that it rethrows is charged once more, to the root of the
  attempt. So one request can reach 4, and k requests 2k + 2, which is the bound (`Quarantine.QuarantineBound`).
- The AICPU bootstrap can be released under a queued invocation exactly of those kernels whose own device
  synchronisation failed in `unload`, which swallows that error (`AicpuModules.BootstrapOutlivesQueue`,
  `AicpuModules.FailedSyncReleasesEarly`).

## Model

| member | source | states |
|---|---|---|
| Publication.EntryNameInjective | include/deep_jit/cache/disk.hpp:135-140 | with valid tags, the directory name `<tag>.<digest>` determines the tag and the digest |
| ArtifactImage.SyncedIsProgress | include/deep_jit/utils/filesystem.hpp:68-80 | one fsync of the walk leaves only the other targets' files, entries and removals to be made durable |
| ArtifactImage.NothingPendingIsDurable | include/deep_jit/utils/filesystem.hpp:68-80 | when every target has been synced nothing of the directory is lost or comes back in a crash |
| ArtifactImage.DurableSurvives | include/deep_jit/utils/filesystem.hpp:68-80 | a durable directory comes through any machine crash with exactly the contents it had |
| PublicationSafety.AdvanceInv | include/deep_jit/runtime/runtime.hpp:112-138 | every step of a request keeps the invariant: what it has built so far, who may still write its directory, what its entry holds and what was read from it |
| PublicationSafety.BootInv | include/deep_jit/backend/ascend/backend.hpp:173-176 | so does the first AICPU load, which starts a request of its own for the loader on the same roots |
| PublicationSafety.ExpireInv | include/deep_jit/cache/disk.hpp:65-68 | so does every timeout of a request, at any point, while its job goes on |
| PublicationCommit.SyncMarkerInv | include/deep_jit/cache/disk.hpp:53-54 | syncing the marker and starting the walk keeps the invariant: everything not yet durable is still on the walk's list |
| PublicationCommit.SyncTreeInv | include/deep_jit/utils/filesystem.hpp:70-79 | each fsync of the walk keeps it |
| PublicationCommit.PublishInv | include/deep_jit/cache/disk.hpp:56-57 | the rename keeps it: what becomes visible is the whole durable file set of this build |
| PublicationCommit.LostRaceInv | include/deep_jit/cache/disk.hpp:58-63 | losing the rename race against a marked entry keeps it, and the loser goes on to remove its own directory |
| PublicationCommit.RemoveStepInv | include/deep_jit/utils/filesystem.hpp:121-141 | every step of a removal keeps it, wherever the removal stops |
| PublicationCommit.WorkInv | include/deep_jit/cache/disk.hpp:52-64 | every step of every job keeps it, also when the request that started the job is gone |
| PublicationRuns.CrashInv | include/deep_jit/cache/disk.hpp:23-27 | a crash of all machines that loses or keeps any directory entry ever made, and any unsynced file, keeps it |
| PublicationRuns.RebootInv | include/deep_jit/cache/disk.hpp:23-27 | a crash of one machine keeps it too, while requests of other machines go on: what the machine has not synced may be lost in every directory that no other machine has in hand |
| PublicationRuns.RebootConsistency | include/deep_jit/cache/disk.hpp:23-27 | after a crash of one machine each entry is there for the others exactly if it was before, with the same contents, and their requests find their own directories as they were |
| PublicationRuns.RunInv | include/deep_jit/cache/disk.hpp:47-82 | the invariant holds in every reachable state, with any number of processes, requests, kills and crashes |
| Origin.NewEntryIsPublished | include/deep_jit/cache/disk.hpp:56-57 | only the rename of a commit gives a directory the name of an entry, and then it is that commit's own directory with the whole artifact of the subject that the commit is for |
| Origin.EntryOrigin | include/deep_jit/cache/disk.hpp:47-82 | every directory that has, or ever had, the name of an entry was that entry before the run, with the same contents, or holds what a request of the run for that tag and key built in it |
| Origin.AtomicPublication | include/deep_jit/cache/disk.hpp:47-74 | in every reachable state a directory with the marker under `cache/<tag>.<digest>` is, complete and durable, what one request of the run with that tag and key built in it, plus the marker; or it was that entry before the run and has not changed |
| PublicationRuns.EntryIsForever | include/deep_jit/cache/disk.hpp:47-82 | once a directory is an entry no later step of anyone changes its contents, crashes included, and until a crash of all machines its name leads to it |
| PublicationRuns.CrashConsistency | include/deep_jit/cache/disk.hpp:52-57 | after a crash of all machines at any point an entry that bears its marker has all files of its writer as they were, durable |
| PublicationRuns.StepKeepsEntries | include/deep_jit/cache/disk.hpp:52-64 | a step that is no crash of all machines keeps every entry, and only a commit's rename makes a directory an entry |
| PublicationOwnership.RemovalHasNoCompany | include/deep_jit/cache/disk.hpp:76-81 | a removal is started only by the request that owns the directory, when no I/O task or compiler command on it can still be running and it is not published |
| PublicationOwnership.TimedOutDirectory | include/deep_jit/runtime/runtime.hpp:128-136 | after a timeout on a build or commit only the very job that was waited for can ever change that directory: it is never removed by its owner, becomes an entry only by that job's own rename, and never if the build timed out |
| PublicationOwnership.AbandonedStays | include/deep_jit/cache/disk.hpp:76-81 | no step gives an abandoned directory to a request again or starts work on it |
| FallbackOrder.RootsInOrder | include/deep_jit/runtime/runtime.hpp:112-138 | under any interleaving the first root of a request's attempt never goes down, a failed attempt raises it to right behind the failed root, and the request works on no root before it |
| FallbackOrder.StepKeepsOrder | include/deep_jit/cache/disk.hpp:141-183 | every step of the protocol keeps each request to the rules of `entry`, and a failed attempt is followed by one that starts right behind its root |
| FallbackOrder.OrderHolds | include/deep_jit/cache/disk.hpp:139-184 | in every run, under any interleaving, a request works on a hit only if it is the least root with a marker and nothing was written before, else on a fresh directory on the least root that takes one and whose lookup did not fail; it gives up only when no root is left or the last root's attempt failed: the rules that `CacheControl.DiskCache.Entry` meets for one caller |
| Transparency.MarkedDataIsGood | include/deep_jit/runtime/runtime.hpp:120-124 | what loading reads from a marked entry is the output file of the build that it holds |
| Transparency.ReturnedEntry | include/deep_jit/runtime/runtime.hpp:112-138 | the entry returned for a request is complete and was built by a request of the run with the same name and the very same key, or was there before the run; what was loaded is that entry's file |
| Transparency.CacheTransparency | include/deep_jit/runtime/runtime.hpp:65-139 | in every run the binary returned is the output of the build that its entry holds, made by a request of the run for the same entry (or before it); if that was for the request's own subject it is what a fresh build gives anywhere, and if not, two different component lists that computing the two keys hashed have one digest, or a kernel of the loader's name has its four components |
| Transparency.CacheTransparencyFnv | include/deep_jit/runtime/runtime.hpp:97-103 | the same for the program's hash, where the collision is one of both 64-bit lanes on two different byte streams |
| Quarantine.QuarantineBound | include/deep_jit/cache/disk.hpp:99-105 | with at most k unfinished requests of callers in a process a root's timeout count never exceeds 2k + 2, builds of the AICPU loader included |
| Quarantine.BoundWithoutLoader | include/deep_jit/cache/disk.hpp:99-105 | while no request of the process builds the loader it never exceeds k + 2 |
| LoaderBoot.BoundIsReached | include/deep_jit/backend/ascend/aicpu/bootstrap.hpp:113-148 | where a loader can be built, k requests at a time do reach 2k + 2, a single one reaches 4: its nested build times out, which is charged once in `build_loader` and again in `compile_impl` |
| LoaderBoot.ExactBound | include/deep_jit/runtime/runtime.hpp:128-136 | k requests at a time stay within k + 2 in every run if and only if the process has no loader to build or no AICPU kernel can exist; otherwise 2k + 2 is the least bound |
| Quarantine.QuarantinedRootIsLeftAlone | include/deep_jit/cache/disk.hpp:141-164 | in every run, once a root's count is 3 or more its process starts no lookup and no temporary directory on it until all machines crash |
| Quarantine.OnlyEntryUsesRoots | include/deep_jit/cache/disk.hpp:141-184 | every lookup and every temporary directory is started by such a step of a request, on the root of that request's index |
| Quarantine.TimeoutIsCharged | include/deep_jit/runtime/runtime.hpp:128-134 | in every run a root's count is exactly the number of I/O timeouts that its process met on it since the last crash: a wait of one of its requests, unless for a compiler command or a removal, or a loader build that ended in one; nothing else is ever charged |
| Quarantine.StepBounded | include/deep_jit/cache/disk.hpp:142-158 | every step keeps the count plus the requests exposed to the root within k + 2, with k unfinished requests, nested ones included |
| CacheControl.DiskCache.ReportError | include/deep_jit/cache/disk.hpp:99-105 | a timeout, and nothing else, raises the counter of its root by one, beside what other threads charge |
| CacheControl.DiskCache.LookupRoots | include/deep_jit/cache/disk.hpp:139-159 | the first loop returns the least root from `first_root` on with a readable marker, looks at no quarantined root, and collects exactly the roots whose lookup failed |
| CacheControl.DiskCache.PlaceRoots | include/deep_jit/cache/disk.hpp:161-184 | the second loop makes a directory on the least usable root and passes over a root only if it is quarantined or its lookup failed |
| CacheControl.DiskCache.Entry | include/deep_jit/cache/disk.hpp:130-185 | `entry`: an invalid tag is refused; a hit is the least one and comes before any write; a miss is written to no root whose lookup failed; it gives up only when all roots are used up |
| CacheControl.DiskCacheEntry.Commit | include/deep_jit/cache/disk.hpp:47-74 | `commit` does nothing on a hit; success turns the entry into a hit at its slot; a timeout abandons the directory; another failure leaves it to the destructor |
| CacheControl.Try | include/deep_jit/runtime/runtime.hpp:115-127 | an attempt compiles and publishes on a miss only and loads if asked to, each step only after the one before went well; its failure tells an I/O timeout and a timed-out command apart from other errors |
| CacheControl.TryRoot | include/deep_jit/runtime/runtime.hpp:115-135 | a directory is removed after an attempt, by the entry's destructor, exactly when the attempt failed without publishing and without any timeout |
| CacheControl.CompileImpl | include/deep_jit/runtime/runtime.hpp:108-139 | `compile_impl`: each attempt takes the root that `entry` must give and starts right behind the root of the one before; a result comes from a successful last attempt; it fails only when the last root failed or `entry` found none; it charges exactly the I/O timeouts of its lookups, placements and attempts |
| CacheControl.RootsIncrease | include/deep_jit/runtime/runtime.hpp:135-136 | root indices of successive attempts increase strictly |
| CacheControl.AtMostNAttempts | include/deep_jit/runtime/runtime.hpp:112-138 | with n roots a request makes at most n attempts |
| Runtime.Runtime.MakeKey | include/deep_jit/runtime/runtime.hpp:97-103 | `cache_key` is the framed hash of signature, compiler, options, hook and the digest of the unfolded include tree, and fails exactly when that tree has a fault; the base hash stays as it was |
| Runtime.Runtime.Compile | include/deep_jit/runtime/runtime.hpp:65-77 | `compile` gives the kernel of the request's own key, from memory without any attempt if it is there; a failed request leaves the memory cache as it was and an entry never changes |
| Runtime.Runtime.constructor | include/deep_jit/runtime/runtime.hpp:41-56 | the base hash holds exactly signature and compiler information |
| CacheKey.EqualKeysCollide | include/deep_jit/runtime/runtime.hpp:97-103 | different inputs with one key contain two different component lists with one digest |
| CacheKey.EqualSubjectKeysCollide | include/deep_jit/backend/ascend/aicpu/bootstrap.hpp:106-111 | so do a kernel and the loader, or two loaders, with one key, unless the same four components are hashed for both |
| ExecutorSafety.StepInv | include/deep_jit/utils/executor.hpp:44-144 | every step of every thread, spurious wakeup and timeout keeps the executor's invariant |
| ExecutorSafety.WorkerMoveView | include/deep_jit/utils/executor.hpp:44-65 | on its own context a worker's step keeps the stage of the last submission: waiting, taken, or run once and destroyed |
| ExecutorSafety.CallMoveView | include/deep_jit/utils/executor.hpp:100-143 | on its context a call's step keeps it too: it hands over only to a worker that is through with the task before |
| ExecutorSafety.DoneMeansFinished | include/deep_jit/utils/executor.hpp:127-139 | a call that saw `done` finds the result of its own closure in the promise, which ran exactly once and is destroyed |
| ExecutorRuns.Isolation | include/deep_jit/utils/executor.hpp:94-144 | in every interleaving each closure runs at most once, and `run` returns or rethrows only its own closure's outcome after it ran exactly once |
| ExecutorRuns.DoneIsCurrent | include/deep_jit/utils/executor.hpp:123-131 | while a call waits, `done` means that its own submission has run exactly once and is destroyed |
| ExecutorRuns.FetchNeverBlocks | include/deep_jit/utils/executor.hpp:138-143 | taking the result never waits |
| ExecutorRuns.NestedIsInline | include/deep_jit/utils/executor.hpp:184-189 | I/O inside a closure is called in place, and no worker ever waits for or holds `run_lock` |
| ExecutorRuns.RetiredForEver | include/deep_jit/utils/executor.hpp:67-78 | a retired worker never runs another task |
| ExecutorRuns.StoppedWorkerHasOneTask | include/deep_jit/utils/executor.hpp:48-58 | a stopped worker can at most still run the submission whose caller stopped it |
| ExecutorRuns.OnlyOwnCallRetires | include/deep_jit/utils/executor.hpp:134-143 | a worker is stopped only by the call whose submission it got last, after that call's timeout or error: an old timeout cannot retire a newer task |
| ExecutorProgress.NoDeadlock | include/deep_jit/utils/executor.hpp:48-76 | while a call is in progress it or its worker has a step, or the worker is inside the submitted closure: no wakeup is lost although both share one condition variable |
| ExecutorProgress.NoDeadlockInRuns | include/deep_jit/utils/executor.hpp:99-100 | nobody waits in vain for `run_lock` |
| ExecutorProgress.RankDrops | include/deep_jit/utils/executor.hpp:44-144 | every step of a call, its worker or its closure lowers a bounded rank |
| ExecutorProgress.CallIsBounded | include/deep_jit/utils/executor.hpp:94-144 | without spurious wakeups and timeouts a call, its worker and its closure take at most 146 steps together, whatever other threads do |
| Precompiler.StepInv | include/deep_jit/runtime/precompiler.hpp:56-138 | every step of producer and workers keeps the queue's invariant |
| Precompiler.TakenInOrder | include/deep_jit/runtime/precompiler.hpp:62-63 | the job at the front is the earliest one not taken yet |
| Precompiler.FirstInFirstOut | include/deep_jit/runtime/precompiler.hpp:56-73 | jobs are taken in the order of submission, none twice, and none runs twice |
| Precompiler.Conservation | include/deep_jit/runtime/precompiler.hpp:38-50 | whenever progress is printed, total minus completed minus queued is the number of workers that hold a job |
| Precompiler.Drained | include/deep_jit/runtime/precompiler.hpp:75-83 | after joining nothing is queued or held, everything is counted and every job has run exactly once |
| Precompiler.Drain | include/deep_jit/runtime/precompiler.hpp:112-142 | every key enqueued before `finish` has exactly one job, which has run exactly once when `finish` has joined |
| Precompiler.NoDeadlock | include/deep_jit/runtime/precompiler.hpp:59-79 | no wakeup is lost: until the workers are joined somebody can go on, or the producer is in user code and all jobs are done |
| Precompiler.Report | include/deep_jit/runtime/precompiler.hpp:141-144 | `finish` reports the error of the earliest submitted failed job, and none exactly when all succeeded |
| Precompiler.ReportIsUnique | include/deep_jit/runtime/precompiler.hpp:141-144 | the error reported depends on the outcomes in order of submission alone |
| Precompiler.ReportIsReady | include/deep_jit/runtime/precompiler.hpp:142-144 | after joining every future is ready |
| Bytes.LittleEndianRoundTrip | include/deep_jit/utils/hash.hpp:22-24 | the eight length bytes determine the length |
| Fnv.FNV1a.Update | include/deep_jit/utils/hash.hpp:15-28 | `update` absorbs the little-endian length and then the data, byte by byte, into both lanes |
| Words.Prime0Bijective | include/deep_jit/utils/hash.hpp:17 | multiplying by the first prime is a bijection modulo 2 to the 64 |
| Words.Prime1Bijective | include/deep_jit/utils/hash.hpp:18 | so is multiplying by the second constant |
| Words.Fold30Bijective | include/deep_jit/utils/hash.hpp:32 | `x ^ (x >> 30)` is a bijection |
| Words.Fold27Bijective | include/deep_jit/utils/hash.hpp:33 | so is the shift by 27 |
| Words.Fold31Bijective | include/deep_jit/utils/hash.hpp:34 | so is the shift by 31 |
| Fnv.StepBijective | include/deep_jit/utils/hash.hpp:16-19 | absorbing one byte is a bijection of each lane |
| Fnv.SplitMixBijective | include/deep_jit/utils/hash.hpp:31-35 | the finaliser is a bijection |
| Fnv.DigestInjective | include/deep_jit/utils/hash.hpp:36 | the 32 hexadecimal digits determine both lanes |
| Fnv.UpdateAllIsOneStream | include/deep_jit/utils/hash.hpp:15-28 | a chain of updates absorbs the concatenation of the framed components |
| Fnv.FramesInjective | include/deep_jit/utils/hash.hpp:21-26 | the framed stream determines the list of components |
| Fnv.OneByteChangesBothHalves | include/deep_jit/utils/hash.hpp:15-37 | changing exactly one byte of one component of a chain changes both halves of the digest |
| Fnv.CollisionIsInTheLanes | include/deep_jit/utils/hash.hpp:15-37 | two component lists collide if and only if two different framed streams leave both lanes equal |
| IncludeScan.ScanIsShape | include/deep_jit/utils/parser.hpp:37-66 | the scanner gives a tracked name or a rejection if and only if the line has the directive's shape with that verdict |
| IncludeScan.ShapeDecides | include/deep_jit/utils/parser.hpp:37-66 | every line of the directive's shape gets the verdict that the shape says |
| IncludeScan.VerdictHasShape | include/deep_jit/utils/parser.hpp:37-66 | a line that is not passed over has the directive's shape |
| IncludeTree.UnfoldingUnique | include/deep_jit/utils/parser.hpp:105-120 | a source has at most one complete unfolding of its tracked includes |
| IncludeTree.FaultPreventsUnfolding | include/deep_jit/utils/parser.hpp:74-92 | a reachable non-standard line, missing file or cycle rules every unfolding out |
| IncludeTree.CircularClosesCycle | include/deep_jit/utils/parser.hpp:74-77 | the reported circular include closes a cycle of the tracked graph |
| IncludeTree.Merkle | include/deep_jit/utils/parser.hpp:105-120 | two different include trees with one digest contain two nodes whose component lists differ and have one digest |
| IncludeParser.Parser.FindFile | include/deep_jit/utils/parser.hpp:80-88 | the first match along the include path |
| IncludeParser.Parser.ParseIncludesIntoHash | include/deep_jit/utils/parser.hpp:68-103 | the digest of a tracked file, memoised or not, is the cache-free one; an error names a reachable fault; `visiting` is restored and memo entries stay on every exit |
| IncludeParser.Parser.ParseIntoHash | include/deep_jit/utils/parser.hpp:105-120 | the same for a source text, and the recursion terminates |
| IncludeParser.Parser.Parse | include/deep_jit/utils/parser.hpp:105-120 | whatever earlier calls left in the memo, a top-level call gives exactly the cache-free recursive digest, and fails if and only if a reachable line, file or cycle is at fault |
| ElfNames.SectionTableFits | include/deep_jit/backend/ascend/kernel.hpp:79 | the size of the section table does not wrap |
| ElfNames.CollectName | include/deep_jit/backend/ascend/kernel.hpp:146-164 | one round of the section loop: the terminated `.ascend.meta.` name with one mix suffix stripped, or none |
| ElfNames.SortUnique | include/deep_jit/backend/ascend/kernel.hpp:165-166 | the strictly ascending list of exactly the collected names |
| ElfNames.AicoreNames | include/deep_jit/backend/ascend/kernel.hpp:129-167 | it rejects exactly an out-of-range string table; else it gives, strictly ascending, exactly the kernels that sections name |
| ElfNames.ReadTable | include/deep_jit/backend/ascend/kernel.hpp:104-115 | it rejects exactly a table with an exported symbol whose name is out of range or unterminated; else it adds exactly the exported names, without address wrap-around |
| ElfNames.AicpuSymbols | include/deep_jit/backend/ascend/kernel.hpp:91-116 | it rejects exactly when some dynamic symbol table or exported name is bad; else it gives all exported functions |
| ElfNames.MatchPairs | include/deep_jit/backend/ascend/kernel.hpp:117-126 | exactly the names n with both n and n_interface among the symbols, in the order of the latter |
| ElfNames.ParseKernelNames | include/deep_jit/backend/ascend/kernel.hpp:63-168 | for every byte string: accepted if and only if well-formed, reading only inside the data; the AICore result is exact and strictly ascending, the AICPU result exact and without repeats |
| ArgPacking.MaskRoundsDown | include/deep_jit/backend/ascend/kernel.hpp:38-40 | masking off the low k bits rounds down to a multiple of 2 to the k |
| ArgPacking.AlignIsRoundUp | include/deep_jit/backend/ascend/kernel.hpp:37-40 | the mask formula on 64 bits is the least aligned offset that is not smaller |
| ArgPacking.ParameterSize | include/deep_jit/backend/ascend/kernel.hpp:239-244 | the size fold gives the size of the layout |
| ArgPacking.LayoutIsSound | include/deep_jit/backend/ascend/kernel.hpp:239-249 | every argument is aligned, behind all earlier ones and inside a buffer whose size is a multiple of 8 and at least 8 |
| ArgPacking.Pack | include/deep_jit/backend/ascend/kernel.hpp:245-249 | the copying fold runs through the same offsets and leaves the arguments in place and zeros in the gaps |
| ArgPacking.ReadsBack | include/deep_jit/backend/ascend/kernel.hpp:246-249 | reading at an argument's offset gives the argument |
| ArgPacking.PackedIsUnique | include/deep_jit/backend/ascend/kernel.hpp:245-249 | the arguments determine the whole buffer |
| JsonText.Output.AppendString | include/deep_jit/utils/json.hpp:55-92 | `dump_string` appends the quoted and escaped string to the output |
| JsonText.Output.AppendJson | include/deep_jit/utils/json.hpp:94-128 | `dump_to` appends the printed value, leaving what was there |
| JsonText.Output.AppendArray | include/deep_jit/utils/json.hpp:105-114 | the loop with its `first` flag prints the items with commas between them |
| JsonText.Output.AppendObject | include/deep_jit/utils/json.hpp:115-127 | so does the one over members |
| JsonReader.StringRoundTrip | include/deep_jit/utils/json.hpp:55-92 | a reader by section 7 of RFC 8259 recovers every byte string from what is printed |
| JsonReader.NumberRoundTrip | include/deep_jit/utils/json.hpp:99-102 | a reader by section 6 recovers every 64-bit number |
| JsonReader.RoundTrip | include/deep_jit/utils/json.hpp:94-128 | a reader by sections 2 to 7 recovers every value of any nesting depth, up to the tag of a number, and consumes exactly the printed text |
| JsonReader.DumpIsInjective | include/deep_jit/utils/json.hpp:49-53 | values with one printed text mean the same |
| FsTree.Directory.FsyncDir | include/deep_jit/utils/filesystem.hpp:68-80 | if nothing fails it syncs the folder and everything below it, each once, every folder after what it holds; if something fails it has only synced |
| FsTree.Directory.WriteFileSync | include/deep_jit/utils/filesystem.hpp:105-116 | success means the file has the data and is durable; a failure changes no other file |
| FsTree.Directory.Prepare | include/deep_jit/cache/disk.hpp:53-54 | marker and walk: on success the directory is what it was plus the marker, and durable |
| FsTree.Directory.SafeRemoveAll | include/deep_jit/utils/filesystem.hpp:121-141 | it removes only what lies below its argument and then that itself, every folder after it is empty, and everything there if nothing fails |
| FsTree.BottomUpIsDurable | include/deep_jit/utils/filesystem.hpp:68-80 | a complete walk makes the directory durable |
| FsTree.WalkFollowsProtocol | include/deep_jit/utils/filesystem.hpp:68-80 | every step of the walk is one that the disk-cache protocol allows |
| FsTree.RemovalFollowsProtocol | include/deep_jit/utils/filesystem.hpp:121-141 | so is every removal: the protocol's removal job can take the same nodes in the same order, and last the name of the emptied directory |
| AicpuModules.InvokeOnLiveModule | include/deep_jit/backend/ascend/aicpu/bootstrap.hpp:310-314 | an invocation runs only on a module that was loaded and is not deleted, and no module is deleted twice |
| AicpuModules.BootstrapOutlivesQueue | include/deep_jit/backend/ascend/kernel.hpp:295-309 | when the bootstrap is released, every invocation still queued is of a kernel whose own device synchronisation in `unload` failed |
| AicpuModules.FailedSyncReleasesEarly | include/deep_jit/backend/ascend/kernel.hpp:295-309 | the other way round: wherever a kernel's own synchronisation failed, which `unload` swallows, while an invocation of it is queued, the run can go on to release the bootstrap with that invocation still queued |
| AicpuModules.EarlyRelease | include/deep_jit/backend/ascend/kernel.hpp:295-309 | such a run from the start |
| AicpuModules.Bootstrap.Execute | include/deep_jit/backend/ascend/aicpu/bootstrap.hpp:274-296 | an ACL failure anywhere between launch and result disables the loader for good, an error that the loader reports does not, and a disabled loader launches nothing |
| AicpuModules.Bootstrap.Unload | include/deep_jit/backend/ascend/aicpu/bootstrap.hpp:310-314 | a module's deletion is asked for only after a successful device synchronisation, once |
| AicpuModules.Kernel.Unload | include/deep_jit/backend/ascend/kernel.hpp:295-309 | whatever fails, the kernel holds nothing afterwards, and its module's deletion is asked for at most once |
| AicpuModules.WriteImage | include/deep_jit/backend/ascend/aicpu/bootstrap_device.hpp:45-52 | the write loop ends in failure or with exactly the image in the file, whatever partial writes and interruptions come |

## Left out

- CacheControl.Try: compile stages and their commands are one outcome, since which stages there are is in the protocol model; so is a load with the loader's build in it, whose own charges count there as those of others.
- ElfNames.SortUnique: sorting by insertion stands for `std::ranges::sort` and `std::ranges::unique`.
- ExecutorProgress.CallIsBounded: counts steps, not time; with spurious wakeups or timeouts there is no bound on the number of steps.
- FsTree.Directory.WriteFileSync: the interleaving with other writers of the same file is not modelled; the directory is private.
- Precompiler.Drain: an exception from allocating memory in `enqueue` is not modelled.
- Runtime.Runtime.Compile: a dry run, which enqueues instead of compiling, is modelled in Precompiler only.
- Transparency.CacheTransparency: says nothing about inputs that no component of the key covers, such as environment variables of the compiler.
- The mode with cache fallback disabled, which runs I/O in place and rethrows before a directory is marked abandoned.
- Destruction of an executor, negative timeouts, and failures to start a thread or allocate memory.
- IncludeParser.Parser.FindFile: does not join include directories with file names as path strings; a file is a pair of directory and name, so `..` and absolute names are not resolved.
- Making the `cache` and `tmp` directories of a root, which commits and lookups of other requests may do at the same time.
- Permission bits, modification times, and symbolic links inside artifact directories.
- A restarted process is a new process with counters at zero.
- Device and driver calls, streams, launch attributes, toolkit discovery, compiler flag lists, environment lookup, logging and the Python interface.
- Pipes, signals and waiting in `call_external_command`: only its three outcomes are kept.
- AICPU bootstrap packaging, the mapping of kernel images and cache-line maintenance.
- Threads of the executor and the precompiler are steps of a state machine, not methods: their fields are updated in place only in that sense.
