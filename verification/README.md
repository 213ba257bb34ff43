# Verification of the ublk-azblob storage stack

A block device backed by an Azure page blob: a write-back memory buffer (`BufferedBackend`) over a persistent
local-disk page cache (`FileCacheBackend`) over the blob, with leases that decide who may write, a gateway that
schedules requests, a template copy, and an NBD server on top.  This project models that stack in Dafny and proves
that it behaves like one flat byte array, under stated hypotheses, in every interleaving.

Verify everything with `dafny verify dfyconfig.toml`.

## How it is organised

Concurrency is modelled as step machines: one step per lock-held section, and one per transfer that runs without
the lock, where any set of bytes may move at a time.  Runs are data, so the theorems speak about all of them.
Sequential code that changes objects in place is modelled as classes with the source's own fields and loops.

| file | what it holds |
|---|---|
| `Common`, `Store`, `Device` | shared definitions; byte images and pagings; the flat device, `MemBackend`, and a remote store whose requests may fail |
| `FileCache`, `FileCacheRefinement`, `FileCacheRuns`, `FileCacheLive` | the disk cache as a machine, its invariant, its runs, and that every operation can be completed |
| `CacheDisk`, `CrashRecovery`, `CrashBytes` | the same machine over files with unsynced writes, crashed at any file operation, down to the bytes of the metadata file |
| `Metadata`, `MetaFile`, `Sessions` | the metadata file, its handling, and reuse across sessions by validity token |
| `Buffer`, `BufferRefinement`, `BufferRuns` | the memory buffer as a machine |
| `Stack`, `StackLive`, `Abstraction` | both layers over the blob; that a flush can be completed; objects of the classes as states of the machines |
| `PageIndex` | the cross-process index of clean pages |
| `Leases`, `LeaseRuns`, `LeaseStrands`, `LeaseTakeOver` | the cluster lease, the blob lease and write epochs; who is left holding a lease; that a free one is taken |
| `Lru`, `PageMap`, `BufferedBackend` | the recency index and the buffer as classes |
| `DiskPages`, `FileCacheBackend`, `Budget`, `BudgetedCache` | the disk cache and the shared byte budget as classes |
| `BudgetRuns` | the byte budget over runs of many processes |
| `Copy`, `Gateway`, `GatewayRuns`, `Nbd` | template copy, I/O gateway, NBD transmission phase |

The budget fields of `FileCacheBackend` (`resident_bytes`, the recency index and the shared budget) are the class
`BudgetedCache`, which owns a cache; with no budget configured the cache runs alone, as in the source.  A `Remote`
counts the requests that failed, so that an operation is proved to succeed exactly when its input is accepted and no
request failed, and to ask nothing of the store where it must not.

## Hypotheses

The code does not enforce these; each is a predicate on the steps of a run, and a bad run without it, from the start, is
proved.

- Flushes of one page do not overlap (`NoOverlap`); without it `FileCacheRuns.OverlappingFlushesLoseAWrite`,
  `BufferRuns.OverlappingFlushesLoseAWrite` and, for the page index, `PageIndex.OverlapListsAHole`.
- A page is not evicted between an unlocked load and its insertion (`NoStaleFetch`, or one client operation at a
  time in the buffer: `Serial`); without it `FileCacheRuns.StaleFetchLosesAWrite`,
  `BufferRuns.ConcurrentLoadsLoseAWrite`.
- Cluster-lease theorems: holder identities are distinct (`Leases.Distinct`) and no clock runs ahead
  (`Leases.OneClock`); without them `LeaseStrands.SharedNameLosesTheLease`, `LeaseStrands.FastClockLosesTheLease`.  The
  blob-lease theorems need neither.
- Reuse across sessions: the blob's token can be read at every open (`Sessions.Trusted`); without it
  `Sessions.UnknownTokenServesStaleByte` and, for the opens that follow, `Sessions.RecordedOverStalePage`.
- Fewer than 2^64 writes hit one page during one upload of it (`NoWrap`; generations wrap).

## Where the code and its documentation disagree

The model follows the code.

- `file.rs:569-571` says a lost clear of a present bit costs only a redundant read; the hole has already been punched,
  so the page reads as zeros (`CrashRecovery.CrashDuringEvictionLosesAByte`).  `CrashRecovery.CrashLosesExactly` says
  which bytes a crash loses: those of the page whose hole is punched and whose bit is not yet cleared.
- `file.rs:813-814` rules out a dirty bit over stale data, which holds; but a crash before the dirty byte is written
  leaves new data under a clean bit, never uploaded (`CrashRecovery.CrashDuringWriteLeavesUnflushedCleanPage`).
  `CrashRecovery.CrashLeavesCleanPagesExactly` says exactly when every clean page found is in step with the blob.
- `file.rs:689-704` treats a lost clean bit as harmless, and it is; a clean bit that is durable before its data is not
  (`CrashRecovery.PowerLossCorruptsWarmedPage`).  `CrashRecovery.PowerLossLosesOnly` says which bytes are at risk.
- `file.rs:491-499` says a hole must neither be charged nor be evictable, but a read of it puts it into the recency
  index (`file.rs:994-997`): it is then released without having been charged (`BudgetRuns.ReadHoleIsReleased`), or
  written without being charged (`BudgetRuns.ReadHoleIsWrittenUncharged`).  `BudgetRuns.ShortfallExactly` says by how much
  the ledger falls short in every run, and `BudgetRuns.UnreadHolesAreExact` that it is exact while no hole is read.
- `mod.rs:192-196` asks only for sorted ranges; nested ones are missed (`Copy.NestedRangeIsMissed`), and
  `Copy.FastIsRightExactlyWhen` says exactly which sorted ranges are safe.
- `k8s.rs:131` says an age is missing when the time is absent; it is also missing when the time is in the future
  (`LeaseRuns.TakeableExactly`).
- A failed `break_lock` returns without giving the cluster lease back (`mod.rs:273-276`), unlike the other failures of a
  mount (`LeaseStrands.BreakFailureKeepsTheClusterLease`).  `LeaseStrands.DownHoldsExactly` says for every run exactly
  when an unmounted node holds the lease.  The break itself may arrive later and end a newer blob lease
  (`LeaseStrands.LateBreakEndsANewerLease`); `LeaseRuns.ActiveLeaseEndsBy` says whose breaks those are.
- `file.rs:1329-1331` takes the token recorded after a flush to vouch for the clean pages; it does not for pages that an
  open without a token kept (`Sessions.RecordedOverStalePage`).  `Sessions.OpenServesExactly` says what any open shows.

## Model

| member | source | states |
|---|---|---|
| `FileCacheRuns.RunRefinesFlat` | ublk-azblob/src/backend/file.rs:624-1313 | in every interleaving of reads, writes that finish or fail between chunks, flush phases, warm-up fetches and evictions (torn and reordered transfers included), the device shown is the first content with exactly the writes, as far as each got, applied in order; hypotheses: `Disciplined` |
| `FileCacheRuns.ReadReturnsFlat` | ublk-azblob/src/backend/file.rs:959-1033 | a read that finishes returns the flat content at one instant, however its chunks interleaved with flushes and fetches |
| `FileCacheRuns.StaleBlobIsDirty` | ublk-azblob/src/backend/file.rs:792-831 | wherever the blob differs from what readers see, the page is present and dirty |
| `FileCacheRuns.FlushProgress` | ublk-azblob/src/backend/file.rs:1257-1312 | with no write going on, any completion order: every page of which an upload was begun and finished is clean, and from a state with nothing in flight the pages left dirty are exactly the others; no byte shown changes |
| `FileCacheRuns.FlushDrains` | ublk-azblob/src/backend/file.rs:1224-1313 | a flush that uploaded every page dirty at its start leaves nothing dirty and the blob equal to the device, whatever was in flight before |
| `FileCacheRuns.OverlappingFlushesLoseAWrite` | ublk-azblob/src/backend/file.rs:1257-1312 | a run from an opened cache in which two flushes of one page overlap and an older value comes back; every other hypothesis holds |
| `FileCacheRuns.StaleFetchLosesAWrite` | ublk-azblob/src/backend/file.rs:722-760 | a run from an opened cache in which a page is evicted under an unlocked fetch and a stale value is installed as clean |
| `FileCacheRefinement.StepRefines` | ublk-azblob/src/backend/file.rs:624-1313 | every disciplined step keeps the invariant (clean pages equal the blob, flights and fetches are current) and moves the flat device only when a write ends or fails, by the bytes it wrote |
| `FileCacheLive.ReadCompletes` | ublk-azblob/src/backend/file.rs:959-1033 | from every state a disciplined run reaches, between two chunks and with anything going on, a disciplined continuation completes a read of any bytes, which returns what the device shows |
| `FileCacheLive.WriteCompletes` | ublk-azblob/src/backend/file.rs:1149-1185 | from every such state a write of any bytes can be completed, fetching pages where it must, and the device then shows exactly it |
| `FileCacheLive.FlushCompletes` | ublk-azblob/src/backend/file.rs:1224-1313 | from every such state a flush can be completed: nothing is dirty, and the blob is the device shown |
| `CrashRecovery.CrashKeepsAcknowledged` | ublk-azblob/src/backend/file.rs:600-618 | a process crash at any file operation of any run, evictions included: each byte read after reopening is the acknowledged one or the one being written, unless its page was evicted and is still listed on disk, and then it may read zero; a byte the blob lacks is on a dirty page, on such a page, or belongs to the write in flight |
| `CrashRecovery.CrashLosesExactly` | ublk-azblob/src/backend/file.rs:545-580 | while every present-bit write goes through, a byte is lost if and only if the crash falls between punching its page and clearing its bit and zero is not an acceptable value; every byte of that page reads zero |
| `CrashRecovery.StaleIsPunched` | ublk-azblob/src/backend/file.rs:545-580 | in such runs the only evicted page still listed is the one being evicted |
| `CrashRecovery.NothingStaleWithoutEviction` | ublk-azblob/src/backend/file.rs:520-535 | with eviction off no page is ever listed wrongly |
| `CrashRecovery.CrashLeavesCleanPagesExactly` | ublk-azblob/src/backend/file.rs:808-824 | over every run, every clean page found after a crash is in step with the blob if and only if no byte of the write in flight is in the file of a listed page not marked dirty and differs from the blob, and no non-zero byte lies under the hole of a listed page |
| `CrashRecovery.CrashBetweenWrites` | ublk-azblob/src/backend/file.rs:792-831 | with no write in flight and no page listed wrongly, reopening gives a proper cache over exactly the acknowledged device |
| `CrashRecovery.PowerLossKeepsDirtyPages` | ublk-azblob/src/backend/file.rs:808-824 | on a disk that may lose any unsynced write, a durable dirty bit has every acknowledged byte of its page durable, and an acknowledged dirty page survives |
| `CrashRecovery.PowerLossLosesOnly` | ublk-azblob/src/backend/file.rs:689-704 | every other byte survives too, unless its page is durably listed as clean and its data is not synced or the page has been evicted; such a byte reads as the durable file has it |
| `CrashRecovery.WrittenBackIsDurable` | ublk-azblob/src/backend/file.rs:689-704 | from every reachable state the kernel alone can write everything back, and then a power loss reopens exactly what a crash does |
| `CrashRecovery.AcknowledgedIsFlat` | ublk-azblob/src/backend/file.rs:1149-1217 | the acknowledged device of a history is the replay of its finished writes |
| `CrashRecovery.CrashDuringEvictionLosesAByte` | ublk-azblob/src/backend/file.rs:553-580 | the run: the hole is punched before the present bit is cleared, and a crash between the two reopens a page of zeros as present |
| `CrashRecovery.CrashDuringWriteLeavesUnflushedCleanPage` | ublk-azblob/src/backend/file.rs:808-824 | the run: a crash after the data write and before the dirty byte leaves new bytes on a page marked clean, which no flush will upload and an eviction takes back |
| `CrashRecovery.PowerLossCorruptsWarmedPage` | ublk-azblob/src/backend/file.rs:689-704 | the run: a warmed page whose present bit becomes durable before its data reopens over stale bytes |
| `CrashBytes.CrashReadsTheFile` | ublk-azblob/src/backend/file.rs:1463-1514 | at every crash the metadata file, as the one-byte writes left it, decodes, and the cache opened from the decoded bitmaps is the one these theorems speak of |
| `CacheDisk.EventKeepsDiskInv` | ublk-azblob/src/backend/file.rs:600-618 | every cache step, eviction, file operation and kernel write-back keeps the relation between memory, page cache and durable disk; a shared bitmap byte never disturbs its other seven pages |
| `Metadata.BitSetGet` | ublk-azblob/src/backend/file.rs:152-168 | setting a bit sets that bit and leaves every other bit, in the same byte or not |
| `Metadata.ByteWritePages` | ublk-azblob/src/backend/file.rs:600-618 | writing one bitmap byte takes the bits of its eight pages and no other page |
| `Metadata.MetaRoundTrip` | ublk-azblob/src/backend/file.rs:1463-1542 | a metadata file is read back exactly by the geometry it was written for and rejected by any other page or device size |
| `Metadata.PersistedBitsDecode` | ublk-azblob/src/backend/file.rs:600-618 | persisting one page rewrites exactly the two bytes that hold its bits, at the offsets where they are read back |
| `MetaFile.WriteFullMeta` | ublk-azblob/src/backend/file.rs:1517-1542 | the header fields placed at their offsets and the two bitmaps form the format, and decode to the same bitmaps |
| `MetaFile.LoadOrInitMeta` | ublk-azblob/src/backend/file.rs:1463-1514 | a fitting file is taken as it is, any other yields clear bitmaps and a rewritten file; the count is the number of dirty pages |
| `MetaFile.DropCleanPages` | ublk-azblob/src/backend/file.rs:1424-1445 | exactly the present clean pages are dropped, in memory and in the file; no dirty page is touched; the count is exact |
| `Sessions.ReuseIsSound` | ublk-azblob/src/backend/file.rs:246-279 | after any sequence of sessions, closes after partial or failed flushes and outside writes, every clean page kept at open equals the live blob and no dirty page is dropped |
| `Sessions.ReopenKeepsDevice` | ublk-azblob/src/backend/file.rs:1298-1342 | with no outside writer since the close, opening shows the device as it was |
| `Sessions.OpenKeepsExactly` | ublk-azblob/src/backend/file.rs:246-279 | over every history, an open with a known token keeps the pages of the metadata file if and only if nothing has moved the token since the recorded one was live or there is no clean page to drop; otherwise it keeps exactly the dirty ones |
| `Sessions.CurrentExactly` | ublk-azblob/src/backend/file.rs:278-279 | the recorded token is the live one exactly if the last event to set or move a token was an open that read it or a record of it |
| `Sessions.QuietSessionIsKept` | ublk-azblob/src/backend/file.rs:278-279 | if no upload lands and nobody else changes the blob between an open with a known token and a later close and open, that open leaves present and dirty pages exactly as the close put them in the metadata file, whatever was recorded meanwhile |
| `Sessions.UnrecordedUploadDropsClean` | ublk-azblob/src/backend/file.rs:1329-1342 | an upload that lands and is not followed by a record costs every clean page, and no dirty one, at the next open with a token |
| `Sessions.EndLeavesBits` | ublk-azblob/src/backend/file.rs:792-831 | a session that ends between writes, cleanly or by a crash, leaves at least its dirty pages as dirty and at most its present pages as present, which is what reuse asks for |
| `Sessions.UnknownTokenServesExactly` | ublk-azblob/src/backend/file.rs:246-279 | with no live token the clean pages are trusted, and the device shown is the live one if and only if nobody has changed a byte of a clean page that was kept |
| `Sessions.UnknownTokenServesStaleByte` | ublk-azblob/src/backend/file.rs:246-279 | an instance in which a byte changed outside is served stale |
| `Sessions.OpenServesExactly` | ublk-azblob/src/backend/file.rs:246-279 | whatever came before, an open shows the live device if and only if the token is known and differs from the recorded one, or every clean page is in step with the blob |
| `Sessions.RecordedOverStalePage` | ublk-azblob/src/backend/file.rs:1329-1342 | a run in which a page kept without a token is stale, a flush of another page records the live token, and the next open trusts the stale page |
| `BufferRuns.RunRefinesFlat` | ublk-azblob/src/backend/buffered.rs:274-666 | without eviction, any number of clients and overlapping flushes: the device is the replay of the chunk writes applied so far |
| `BufferRuns.ServeReturnsFlat` | ublk-azblob/src/backend/buffered.rs:504-551 | every served chunk equals that flat array |
| `BufferRuns.SerialRunRefinesFlat` | ublk-azblob/src/backend/buffered.rs:274-349 | with eviction, one client operation at a time and no overlapping flushes, the device still is the replay |
| `BufferRuns.SerialServeReturnsFlat` | ublk-azblob/src/backend/buffered.rs:530-545 | reads match the flat array across evictions and reloads |
| `BufferRuns.StaleInnerIsDirty` | ublk-azblob/src/backend/buffered.rs:377-427 | no page whose inner content is out of date is ever clean or not resident |
| `BufferRuns.FlushDrains` | ublk-azblob/src/backend/buffered.rs:365-448 | a flush in any completion order with no write leaves the inner store equal to the view, whatever was in flight before |
| `BufferRuns.OverlappingFlushesLoseAWrite` | ublk-azblob/src/backend/buffered.rs:374-433 | a run from an empty buffer, one client at a time, in which overlapping flushes of one page bring an older value back |
| `BufferRuns.ConcurrentLoadsLoseAWrite` | ublk-azblob/src/backend/buffered.rs:274-327 | a run from an empty buffer, without overlapping flushes, in which two concurrent loads and an eviction bring an older value back |
| `Stack.RunRefinesFlat` | ublk-azblob/src/main.rs:687-833 | buffer over disk cache over blob, with independent pagings, shows exactly the chunk writes in order, also when uploads and loads that have begun fail or are cancelled part way; one client operation at a time |
| `Stack.ManyRunRefinesFlat` | ublk-azblob/src/main.rs:687-833 | the same with any number of clients and overlapping buffer flushes, if the buffer evicts nothing |
| `Stack.FlushReachesBlob` | ublk-azblob/src/backend/buffered.rs:668-693 | after a top-level flush with no concurrent write the blob itself is the device, whatever uploads of either layer were in flight before |
| `StackLive.FlushCompletes` | ublk-azblob/src/backend/buffered.rs:668-693 | from every state of the stack that keeps the invariant, with the disk cache between two chunks and anything going on in either layer, such a flush can be completed: nothing is dirty in either layer and the blob is the device |
| `Stack.StepRefines` | ublk-azblob/src/main.rs:687-833 | every step of either layer, failures of begun requests included, keeps both invariants, and only an applied chunk write changes the device |
| `Stack.ManyStepRefines` | ublk-azblob/src/main.rs:687-833 | the same step by step for many clients and no buffer eviction |
| `Abstraction.CacheObjectIsAState` | ublk-azblob/src/backend/file.rs:99-145 | a disk-cache object between operations is a machine state that satisfies the invariant and shows the same device |
| `Abstraction.ChunkAsMachine` | ublk-azblob/src/backend/file.rs:792-831 | a chunk write of a cache object is the machine's begin, put, mark and end of that chunk, with the object's generations those of the machine as far as `u64` can tell |
| `Abstraction.EarlierFlightDiffers` | ublk-azblob/src/backend/file.rs:1291-1297 | after it, every upload of that page begun earlier finds another generation, unless 2^64 writes went by |
| `Abstraction.BufferObjectIsAState` | ublk-azblob/src/backend/buffered.rs:93-128 | the same for a buffer object |
| `Abstraction.MountedStack` | ublk-azblob/src/main.rs:687-833 | a freshly mounted stack, for any two page sizes, any device size and any recovered pages, satisfies the invariant the runs start from |
| `PageIndex.ListedPageIsClean` | ublk-azblob/src/backend/cache_index.rs:117-194 | in every reachable state of any number of processes with deaths and restarts, an entry of a live owner names a page that is present and clean; needs only that flushes of a page do not overlap |
| `PageIndex.ListedPageIsTheBlob` | ublk-azblob/src/backend/cache_index.rs:117-194 | under all hypotheses of the cache such a page also equals its owner's blob |
| `PageIndex.PeerReadIsWhole` | ublk-azblob/src/backend/cache_index.rs:157-194 | a peer that reads a page to the end gets it as it stood at the start and still stands: never torn, never punched; the same single hypothesis |
| `PageIndex.ListedExactly` | ublk-azblob/src/backend/cache_index.rs:117-155 | over every history, the index lists a page of a live process if and only if the last thing that process did about it was to publish it |
| `PageIndex.PeerReadsExactly` | ublk-azblob/src/backend/cache_index.rs:157-194 | a peer may begin to read a page exactly while it stands published, and one read of all its bytes then returns it |
| `PageIndex.ReadersLeave` | ublk-azblob/src/backend/cache_index.rs:157-194 | from every reachable state the readers can end, so that the lock is free for a publisher, and nothing else has changed |
| `PageIndex.LockPrunes` | ublk-azblob/src/backend/cache_index.rs:211-237 | whoever takes the lock exclusively leaves no entry of a dead process and keeps those of live ones |
| `PageIndex.OverlapListsAHole` | ublk-azblob/src/backend/file.rs:1291-1312 | a run in which two flushes of one page overlap and an eviction falls between them: the second publishes a page that is gone, and a peer reads its hole |
| `PageIndex.EventKeepsIndexInv` | ublk-azblob/src/backend/cache_index.rs:211-237 | publish, unpublish, prune, death, restart and every cache step keep the index invariant |
| `LeaseRuns.HandOver` | ublk-azblob/src/coordination/k8s.rs:141-178 | in every interleaving of gets and compare-and-swaps, a holder loses the lease only by its own release or to a node whose recovery timeout has passed since the last renewal when the swap lands |
| `LeaseRuns.DisplacedStaysOut` | ublk-azblob/src/coordination/k8s.rs:180-206 | a displaced node stays out until it acquires again |
| `LeaseRuns.DisplacedRenewFails` | ublk-azblob/src/coordination/k8s.rs:180-206 | each of its renewals is refused by the server meanwhile |
| `LeaseRuns.SetHolderHasRenewTime` | ublk-azblob/src/coordination/k8s.rs:78-122 | a set holder always has a renewal time, not in the future |
| `LeaseRuns.TakeableExactly` | ublk-azblob/src/coordination/k8s.rs:132-137 | a lease read under another holder is claimed if and only if its renewal time, unless absent or ahead of the clock, is at least the timeout old |
| `LeaseRuns.DecidesExactly` | ublk-azblob/src/coordination/k8s.rs:141-206 | for every object read, absent, unheld, own, fresh or stale: a try-acquire claims it unless another holder renewed it less than the timeout ago, a renewal claims it if it is absent or its own, a release clears it if it is its own |
| `LeaseTakeOver.FreeLeaseIsTaken` | ublk-azblob/src/coordination/k8s.rs:141-178 | in every run, a joining node that gets, decides and swaps while no other swap lands ends up holding the lease and on its way to the blob lease, unless the object was protected when it decided |
| `LeaseTakeOver.HolderIsReplaced` | ublk-azblob/src/coordination/k8s.rs:141-178 | from every reachable state, whoever holds the lease, a joining node can wait out the timeout and take it: a holder that is gone for good is replaced |
| `LeaseTakeOver.ReleasedLeaseIsTakenAgain` | ublk-azblob/src/coordination/k8s.rs:208-237 | so a release that has landed leaves the lease for any other node to take |
| `LeaseTakeOver.HolderGivesItBack` | ublk-azblob/src/coordination/k8s.rs:208-237 | in every run, a leaving node whose own the lease is, and whose swap lands while no other does, is down and the lease is unheld, whether it hears of it or not |
| `LeaseTakeOver.OtherLeavesItAlone` | ublk-azblob/src/coordination/k8s.rs:208-237 | in every run, a leaving node that finds the lease not its own is down and has not touched it |
| `LeaseTakeOver.RenewalProtects` | ublk-azblob/src/coordination/k8s.rs:141-178 | in every run, a holder keeps the lease for the recovery timeout of every other node after its last renewal, unless it gives it back |
| `LeaseTakeOver.RenewalIsStamped` | ublk-azblob/src/coordination/k8s.rs:180-206 | a renewal that is sent claims the lease for its node and carries the time at which it was decided |
| `LeaseTakeOver.TryingMountsExactly` | ublk-azblob/src/coordination/mod.rs:253-291 | a clustered node with the cluster lease mounts: at once if nobody has the blob lease, and otherwise by breaking it, which fences its holder; a node outside the cluster breaks nothing and gives up |
| `LeaseStrands.FastClockLosesTheLease` | ublk-azblob/src/coordination/k8s.rs:132-137 | a run in which a live holder whose clock is one tick ahead loses its lease and its blob lease at once |
| `LeaseStrands.SharedNameLosesTheLease` | ublk-azblob/src/coordination/k8s.rs:141-178 | a run in which a live holder that shares its identity with another node loses both the same way |
| `LeaseRuns.WritesFormEpochs` | ublk-azblob/src/coordination/mod.rs:221-348 | over all runs of many nodes, accepted blob writes form one contiguous epoch per lease id |
| `LeaseRuns.SupersededIdIsFenced` | ublk-azblob/src/backend/azure.rs:708-718 | once a newer id has been issued, no write under the old id is ever accepted again, however late it arrives |
| `LeaseRuns.BrokenIdIsFenced` | ublk-azblob/src/coordination/mod.rs:267-291 | breaking or releasing a lease fences its id at once and for good |
| `LeaseRuns.AcceptedExactly` | ublk-azblob/src/backend/azure.rs:708-718 | in every run a write is accepted if and only if it is under the newest id and that lease is in force |
| `LeaseRuns.MountedIsAccepted` | ublk-azblob/src/coordination/mod.rs:299-321 | a node that acquires the blob lease is mounted under a new id, and its writes are accepted |
| `LeaseRuns.RenewedIsAccepted` | ublk-azblob/src/coordination/mod.rs:324-348 | a lease that expired accepts nothing until its holder renews it, and then accepts its writes again |
| `LeaseTakeOver.ReleaseFrees` | ublk-azblob/src/coordination/mod.rs:373-389 | a release by the newest holder frees the blob lease and fences its id |
| `LeaseTakeOver.InForceExactly` | ublk-azblob/src/coordination/mod.rs:253-348 | in every step the blob lease comes into force, and ends, exactly by the listed acquisitions, renewals, breaks, releases and expiry, late ones included |
| `LeaseRuns.IdHasOneHolder` | ublk-azblob/src/coordination/mod.rs:299-321 | two mounted nodes never share a lease id |
| `LeaseRuns.BreakerHasWon` | ublk-azblob/src/coordination/mod.rs:253-276 | only a clustered node that won the cluster lease in this mount breaks a blob lease; a node with only the blob lock never does |
| `LeaseRuns.ActiveLeaseEndsBy` | ublk-azblob/src/coordination/mod.rs:373-389 | an active lease ends only by expiry, by a release of its own holder, or by a break of a clustered node that has won the cluster lease; a break or release given up may arrive late, and such a breaker had won when it sent it |
| `LeaseStrands.DownHoldsExactly` | ublk-azblob/src/coordination/mod.rs:221-321 | in every run, a node not past joining holds the cluster lease if and only if it was left with it (its break failed, it crashed, its release failed, was lost or given up while it held it, or the lease became its own unheard) and it has not moved since |
| `LeaseStrands.BreakFailureKeepsTheClusterLease` | ublk-azblob/src/coordination/mod.rs:267-291 | a run without a crash that ends with an unmounted node holding the cluster lease, because its break failed |
| `LeaseStrands.LateBreakEndsANewerLease` | ublk-azblob/src/coordination/mod.rs:267-291 | a run in which the break that failed arrives after the blob lease was given back and taken again, and ends the new lease |
| `Leases.EventKeepsInv` | ublk-azblob/src/coordination/mod.rs:221-348 | every step of get, decide, swap, mount, break, renew, release and crash keeps the lease invariants |
| `Leases.EventKeepsBlobInv` | ublk-azblob/src/coordination/mod.rs:299-348 | every step keeps the part about the blob lease and the write log, whatever the names and clocks |
| `Lru.Lru.Touch` | ublk-azblob/src/backend/cache_lru.rs:54-64 | moves the page to the end of the recency list and reclassifies it; the two indexes stay inverse |
| `Lru.Lru.PopLru` | ublk-azblob/src/backend/cache_lru.rs:67-76 | removes the least recently used clean page other than the protected one, or says there is none |
| `Lru.VictimAt` | ublk-azblob/src/backend/cache_lru.rs:67-76 | the smallest evictable stamp names the victim of the plain recency list |
| `Lru.TouchInverse` | ublk-azblob/src/backend/cache_lru.rs:54-64 | reclassifying one page keeps the stamp index the inverse of the page index on the clean pages |
| `Lru.VictimIsOldest` | ublk-azblob/src/backend/cache_lru.rs:67-76 | the victim was used before every other page that could have gone |
| `Device.MemBackend.Write` | ublk-azblob/src/backend/mem.rs:60-74 | replaces exactly the given range, or fails and changes nothing, according to alignment and bounds |
| `Device.MemBackend.Read` | ublk-azblob/src/backend/mem.rs:46-58 | returns exactly the given range if and only if it is aligned and in bounds |
| `Device.MemBackend.Clear` | ublk-azblob/src/backend/mem.rs:76-89 | zeros exactly the given range under the same conditions |
| `Device.MemBackend.Create` | ublk-azblob/src/backend/mem.rs:36-44 | zeros of the given size, exactly for a non-zero multiple of 512 |
| `Device.SpliceParts` | ublk-azblob/src/backend/buffered.rs:571-611 | writing a prefix and then the next part is writing the longer prefix, which is why chunked operations add up |
| `BufferedBackend.New` | ublk-azblob/src/backend/buffered.rs:131-147 | a buffer is made exactly for the accepted configurations, and shows the inner store |
| `BufferedBackend.BufferedBackend.Read` | ublk-azblob/src/backend/buffered.rs:504-551 | succeeds exactly when the range is accepted and no request failed, and surely if its pages are in memory; returns the device bytes, changes none, and keeps both limits; the page read last is the newest, and if its pages fit beside the resident ones, nothing is evicted |
| `BufferedBackend.BufferedBackend.Write` | ublk-azblob/src/backend/buffered.rs:553-614 | succeeds exactly when the range is accepted and no request failed; writes exactly the data, or on failure a prefix of it; every resident page written gets a later stamp than any before; leaves at most the allowed dirty pages and, within the limits before, at most the allowed resident pages and one, and evicts nothing if all fit |
| `BufferedBackend.BufferedBackend.Clear` | ublk-azblob/src/backend/buffered.rs:616-666 | zeros exactly the range, or on failure a prefix of it, under the same conditions and limits |
| `BufferedBackend.BufferedBackend.Flush` | ublk-azblob/src/backend/buffered.rs:668-693 | succeeds exactly when no request failed; then nothing is dirty, the inner store is the device and has been flushed in turn; no page leaves memory; a failure leaves the device unchanged |
| `BufferedBackend.BufferedBackend.EnsureResident` | ublk-azblob/src/backend/buffered.rs:274-327 | makes the page resident unless the read failed, asks nothing of the inner store if it is, changes no byte shown and no dirty page, and evicts nothing if the page fits beside the others |
| `BufferedBackend.BufferedBackend.EnforceCacheLimit` | ublk-azblob/src/backend/buffered.rs:338-349 | within the limit nothing changes; over it, clean unprotected pages go, each used before every one that stays, no more than the limit asks for, until it holds or only dirty pages and the protected one are left |
| `BufferedBackend.BufferedBackend.EnforceDirtyLimit` | ublk-azblob/src/backend/buffered.rs:452-478 | within the limit nothing changes and nothing is uploaded; over it, unless a write failed, exactly the oldest pages over the limit are flushed |
| `BufferedBackend.TakeOldest` | ublk-azblob/src/backend/buffered.rs:460-468 | the chosen pages are as many as asked for and each is older than every page not chosen |
| `PageMap.PutShows` | ublk-azblob/src/backend/buffered.rs:577-604 | changing part of a resident page writes exactly that part of the device |
| `PageMap.FlushInSync` | ublk-azblob/src/backend/buffered.rs:374-433 | a flushed page is in step with the inner store and no other page falls out of step |
| `FileCacheBackend.FileCacheBackend.constructor` | ublk-azblob/src/backend/file.rs:189-279 | opens over what the files hold, whatever it is: a fitting metadata file is honoured, an untrusted one loses its clean pages, dirty pages are always kept; the cache is in order if no dirty page was absent, no bit past the end, and trusted clean pages in step |
| `FileCacheBackend.FileCacheBackend.Read` | ublk-azblob/src/backend/file.rs:959-1033 | succeeds exactly when the range is accepted and no request failed, and surely if its pages are present; returns the device bytes, hits from the data file and misses from the inner store |
| `FileCacheBackend.FileCacheBackend.Write` | ublk-azblob/src/backend/file.rs:1149-1185 | succeeds exactly when the range is accepted and no request failed; writes exactly the data, or on failure a prefix of it; exactly the pages of what was written become present and dirty and move to the next generation; the metadata file stays in step |
| `FileCacheBackend.FileCacheBackend.Clear` | ublk-azblob/src/backend/file.rs:1187-1217 | zeros exactly the range, or on failure a prefix of it, with the same effect on pages and generations |
| `FileCacheBackend.FileCacheBackend.WroteMovesGenerations` | ublk-azblob/src/backend/file.rs:821-822 | after a write or clear, finished or failed, a page's generation differs from before if and only if some of what was written is on it |
| `FileCacheBackend.FileCacheBackend.Flush` | ublk-azblob/src/backend/file.rs:1224-1313 | goes on past failures, so that each page left dirty had a failed request of its own; succeeds exactly when no request failed, and then nothing is dirty, the inner store is the device and has been flushed in turn |
| `FileCacheBackend.FileCacheBackend.Prefetch` | ublk-azblob/src/backend/file.rs:1035-1076 | succeeds exactly when the range is accepted and no request failed; then exactly the pages of the range have been added to the present ones; on failure only such pages; no byte shown changes |
| `FileCacheBackend.FileCacheBackend.EnsurePage` | ublk-azblob/src/backend/file.rs:624-653 | makes the page present as clean unless the read failed, asking nothing if it is present, without changing a byte shown; says when it became a hole |
| `FileCacheBackend.FileCacheBackend.StoreCleanPage` | ublk-azblob/src/backend/file.rs:659-714 | a fetched page, written or kept as a hole, shows the same device; it is a hole exactly when it is all zero, the filesystem can, and the punch succeeds |
| `FileCacheBackend.FileCacheBackend.DirtyPageRegion` | ublk-azblob/src/backend/file.rs:792-831 | writes exactly that part of the device, marks the page present and dirty, in memory and in the file, and moves its generation and no other, below 2^64 |
| `FileCacheBackend.FileCacheBackend.EvictPage` | ublk-azblob/src/backend/file.rs:536-580 | punches the hole over exactly that page and drops it, which changes no byte shown |
| `FileCacheBackend.Restart` | ublk-azblob/src/backend/file.rs:189-279 | reopening over the files as an object left them shows the same device, with the present pages if the token is trusted and the dirty ones if not |
| `DiskPages.DirtyShows` | ublk-azblob/src/backend/file.rs:1168-1182 | writing a part of a present page, or the whole of an absent one, writes exactly that part of the device |
| `BudgetRuns.HistoryConserves` | ublk-azblob/src/backend/cache_budget.rs:114-205 | whoever opens, fetches, writes, reads, evicts or dies in between, each live owner's balance plus what it released uncharged is what its charged pages add up to plus what was clipped |
| `BudgetRuns.DeadIsReclaimed` | ublk-azblob/src/backend/cache_budget.rs:203-205 | once a process has died, whatever happens in between, the next transaction of anybody reclaims all its balances |
| `BudgetRuns.ShortfallExactly` | ublk-azblob/src/backend/file.rs:481-596 | in every run the ledger never records more than an owner keeps on disk, and less by exactly the summed length of pages released uncharged, less what was clipped, and of pages kept uncharged |
| `BudgetRuns.UnreadHolesAreExact` | ublk-azblob/src/backend/file.rs:481-515 | while no hole is read the ledger records exactly the bytes each owner keeps on disk, so saturation never clips |
| `BudgetRuns.ReadHoleIsReleased` | ublk-azblob/src/backend/file.rs:994-997 | a run in which an all-zero page, listed by a read, is evicted and releases bytes it was never charged, and the balance falls to zero over a page on disk |
| `BudgetRuns.ReadHoleIsWrittenUncharged` | ublk-azblob/src/backend/file.rs:501-506 | a run in which such a page is written and takes up disk that nobody is charged for |
| `BudgetedCache.BudgetedCache.constructor` | ublk-azblob/src/backend/file.rs:317-354 | seeds the recency index, in page order, the resident count and the balance from the recovered pages, leaving out clean pages that are holes |
| `BudgetedCache.BudgetedCache.AccountPresent` | ublk-azblob/src/backend/file.rs:481-515 | is one step of the run model followed by a pass for exactly the excess of the total then recorded over the limit; while nothing uncharged was released and the sum fits, the total ends within the limit unless a punch really failed or nothing is left to evict; the page becomes the newest, and what is evicted was used before what could have gone instead |
| `BudgetedCache.BudgetedCache.FetchPage` | ublk-azblob/src/backend/file.rs:624-714 | the same for a page made present, an all-zero page becoming an uncharged hole; nothing changes on failure or if it was present |
| `BudgetedCache.BudgetedCache.DirtyRegion` | ublk-azblob/src/backend/file.rs:792-831 | the same for a write, which also takes the page out of the evictable ones; an unlisted page is charged, a listed one is not |
| `BudgetedCache.BudgetedCache.EvictClean` | ublk-azblob/src/backend/file.rs:520-596 | evicts listed clean pages, never the protected one: as many bytes as asked for and less than a page more, unless nothing is left or the very next hole punch fails, every one before having succeeded; the ledger falls by as much, less what is clipped; the device is unchanged; every page that went was used before every one that could have gone and stayed |
| `BudgetedCache.BudgetedCache.EvictOne` | ublk-azblob/src/backend/file.rs:536-585 | evicts the recency list's victim, or puts it back as the newest if the punch failed, or finds nothing evictable |
| `BudgetedCache.BudgetedCache.ReadChunk` | ublk-azblob/src/backend/file.rs:983-998 | returns the device bytes; a hit asks nothing of the inner store, makes the page the newest and so lists a hole too, and charges nothing; a miss lists nothing |
| `BudgetRuns.BytesWithin` | ublk-azblob/src/backend/file.rs:470-473 | the lengths of any present pages add up to no more than the device |
| `Budget.TransactedBalance` | ublk-azblob/src/backend/cache_budget.rs:157-166 | a transaction sets its own balance, keeps every other live one and reclaims the dead |
| `Budget.PruneDead` | ublk-azblob/src/backend/cache_budget.rs:203-205 | keeps exactly the entries of this process and of live ones, in order |
| `Budget.Total` | ublk-azblob/src/backend/cache_budget.rs:180-184 | the sum of all balances, or the largest number if it does not fit |
| `Budget.Upsert` | ublk-azblob/src/backend/cache_budget.rs:187-200 | finds the first entry of the owner or adds one, so that setting it sets that balance and no other |
| `Budget.CacheBudget.Admit` | ublk-azblob/src/backend/cache_budget.rs:126-132 | adds to the owner's balance and returns how far the total is over the limit |
| `Budget.CacheBudget.Release` | ublk-azblob/src/backend/cache_budget.rs:135-140 | takes from the owner's balance, never below zero |
| `Budget.CacheBudget.Reset` | ublk-azblob/src/backend/cache_budget.rs:114-120 | sets the owner's balance and returns how far the total is over the limit |
| `Budget.SumWith` | ublk-azblob/src/backend/cache_budget.rs:180-200 | the total moves by exactly the change of one balance |
| `Budget.TransactedSum` | ublk-azblob/src/backend/cache_budget.rs:157-166 | a transaction, which may also prune, moves the total by at most the change of its own balance |
| `Copy.RangeIntersects` | ublk-azblob/src/backend/mod.rs:197-209 | the binary search decides by the last range that starts before the chunk ends, and equals the naive overlap test on sorted, disjoint, non-empty ranges |
| `Copy.FastIsRightExactlyWhen` | ublk-azblob/src/backend/mod.rs:192-209 | on sorted ranges the test is right for every chunk if and only if each deciding range ends, up to the next start, where the furthest range so far ends |
| `Copy.NestedRangeIsMissed` | ublk-azblob/src/backend/mod.rs:192-209 | sorted ranges that nest: the test misses a range that does overlap |
| `Copy.CopyChunkBytes` | ublk-azblob/src/backend/mod.rs:26-32 | always a multiple of 512 between 512 and 4 MiB: the configured size cut to a multiple, the nearer bound if it is outside, 4 MiB if there is none |
| `Copy.IsData` | ublk-azblob/src/csi/mod.rs:545-563 | a chunk is copied if and only if the ranges are not known or one shares a byte with it, and a chunk that is cleared is zero in the source |
| `Copy.CopyBlobStreamed` | ublk-azblob/src/csi/mod.rs:532-586 | succeeds exactly when no request failed; whatever the destination held, it then equals the source on [0, total), is unchanged after, and has been flushed; the bytes copied are exactly those of the chunks that share a byte with a data range, the others are cleared; for all sorted ranges on which the overlap test is right |
| `Copy.CopyPagesFromUrl` | ublk-azblob/src/backend/azure.rs:328-448 | the same for any batch size and any completion order within a batch, and an aligned total |
| `Copy.CopyBatch` | ublk-azblob/src/backend/azure.rs:384-437 | after a batch in any order its chunks hold the source's bytes and the earlier ones still do |
| `GatewayRuns.PermitsAndCeilings` | ublk-azblob/src/backend/io_gateway.rs:279-300 | in every run free permits plus running jobs equal the total, and each direction stays within its clamped ceiling |
| `GatewayRuns.BandwidthCeiling` | ublk-azblob/src/backend/io_gateway.rs:134-152 | in every run, a limited direction is charged for no more than one full bucket and a tenth of its bandwidth for each refill |
| `GatewayRuns.TokenStep` | ublk-azblob/src/backend/io_gateway.rs:171-183 | what a step charges comes out of the bucket, which a refill fills by exactly its amount unless it is full |
| `GatewayRuns.TakesExactly` | ublk-azblob/src/backend/io_gateway.rs:60-70 | an idle worker may take a job if and only if it is of its direction and no queued job of that direction goes before it: foreground reads, then flushes, copies, warm-up |
| `GatewayRuns.EachJobIsSomewhere` | ublk-azblob/src/backend/io_gateway.rs:355-387 | each submitted job is queued, held by one worker or done: exactly one of these |
| `GatewayRuns.EndsOnceAndPaid` | ublk-azblob/src/backend/io_gateway.rs:164-193 | a job ends once, after exactly its bytes were charged, and its result is delivered if and only if it finished before it was cancelled |
| `GatewayRuns.DeliveredExactly` | ublk-azblob/src/backend/io_gateway.rs:355-387 | in every run a running job is cut short if and only if its submitter has given up, and a job that ends hands its result over if and only if it ran to its end and its submitter had not given up |
| `GatewayRuns.RunsToItsEnd` | ublk-azblob/src/backend/io_gateway.rs:164-193 | in every run a job that finishes has had exactly its own steps run, by one worker |
| `GatewayRuns.OutcomeIsFinal` | ublk-azblob/src/backend/io_gateway.rs:355-387 | an outcome and the bytes charged for it never change again |
| `GatewayRuns.Drains` | ublk-azblob/src/backend/io_gateway.rs:164-193 | from every reachable state, steps of the workers and refills alone lead to nothing queued and every worker idle |
| `GatewayRuns.WorkerStepsBounded` | ublk-azblob/src/backend/io_gateway.rs:164-193 | every run in which nothing is submitted has at most as many worker steps as there was left to do, and what is left shrinks with each |
| `GatewayRuns.StoppedIsDrained` | ublk-azblob/src/backend/io_gateway.rs:164-193 | once the buckets are full, the workers stop only when everything is done |
| `GatewayRuns.DrainedIsDone` | ublk-azblob/src/backend/io_gateway.rs:164-193 | with nothing left to do every submitted job has an outcome and every permit is free |
| `GatewayRuns.StepCost` | ublk-azblob/src/backend/io_gateway.rs:164-193 | every worker step strictly decreases what is left to do; cancelling and refilling do not increase it |
| `GatewayRuns.ChargeRounds` | ublk-azblob/src/backend/io_gateway.rs:171-183 | the charging loop acquires exactly the payload in rounds no larger than the limiter maximum, all but the last full |
| `Gateway.NewConfig` | ublk-azblob/src/backend/io_gateway.rs:279-300 | the permits are the concurrency, at least one; each direction gets its ceiling clamped between one and the total as its number of workers; exactly the directions with a bandwidth are limited, with a bucket of at least one largest request and a tenth of the bandwidth a refill |
| `Gateway.EventKeepsInv` | ublk-azblob/src/backend/io_gateway.rs:164-193 | every step conserves permits, places and payments |
| `Nbd.StreamStaysInSync` | ublk-azblob/src/nbd_target.rs:328-438 | for every encoded request list, and however each backend call ends, the server reads exactly those bytes up to a disconnect, replies once per request in order with its handle, and leaves the fold of the commands, a failed one as far as it got |
| `Nbd.ClientStaysInSync` | ublk-azblob/src/nbd_target.rs:455-468 | the client reads back one answer per request, data only after a successful read, and nothing is left over, whatever failed |
| `Nbd.AnswersAreRight` | ublk-azblob/src/nbd_target.rs:350-435 | for every request list and however each call ends, the i-th answer carries the error its request deserves, and byte k of a successful read is what the last earlier accepted write put there, zero after a trim or write-zeroes, or the first device's byte |
| `Nbd.DeviceIsLastWrites` | ublk-azblob/src/nbd_target.rs:350-435 | and each byte of the device left at the end is what the last accepted write or clear put there, a failed one as far as it got, or the first device's |
| `Nbd.ParseEncoded` | ublk-azblob/src/nbd_target.rs:336-348 | decoding takes exactly one encoded request off the stream, whatever follows |
| `Nbd.Transmission` | ublk-azblob/src/nbd_target.rs:328-438 | the loop over the write-back buffer, on any byte stream, sends and consumes what the specification says and leaves the device it says; a call fails only if a request of the store failed or the export is larger than the device; it goes on until the client leaves, the stream ends or is malformed, and when the client leaves and nothing failed, the device is flushed |
| `Nbd.Handle` | ublk-azblob/src/nbd_target.rs:350-435 | each command's device change, error code and reply; a failed write leaves a prefix and EIO, a flush that succeeds leaves the inner store equal to the device and flushed |
| `Nbd.ReadOnlyStream` | ublk-azblob/src/nbd_target.rs:385-391 | no byte stream, well-formed or not, changes a read-only device, whatever fails |
| `Nbd.ReadOnlyNeverChanges` | ublk-azblob/src/nbd_target.rs:413-417 | nor does any list of requests |

## Left out

- Azure SDK, HTTP, authentication and token minting: the blob is an array with a lease and a token that changes on
  every mutation.
- `create` and `delete` in the concurrent models: they reset sequence numbers and generations, and `delete` leaves the
  on-disk bitmaps.
- An upload that lands after its failure was reported: it is an upload that has not finished, so that a new flush of its
  page falls under the overlap that `NoOverlap` excludes.
- Local file I/O errors: a data-file write that fails half way leaves changed bytes on a clean page; writes of the
  metadata file that the code treats as non-fatal always succeed here.
- Whether page sharing serves the right content to diverged clones: sharing is off in the binary; only the safety of
  publish and unpublish is proved.
- The text format of the budget and index state files, and pid reuse.
- The Lease object being deleted by an operator: versions are taken to grow for ever.
- Real-time behaviour of timers, retry back-off and bandwidth: timers are steps that may happen at any time.
- NBD negotiation, the ublk and io_uring loop, signals, CSI services, mounting, command line and URL parsing.
- Overflow of the `u64` sequence counter of the buffer and of the recency clock.
- Default `warmup` and `data_ranges`: loops over operations that are modelled.
- FileCacheBackend.FileCacheBackend.constructor: takes a page size and a device size that `open` accepts; its two
  rejections are not repeated, and what a trusted token proves is the subject of `Sessions`.
- BufferedBackend.BufferedBackend.Flush: pages are written one after another; the concurrent order is in `BufferRuns`.
- BudgetedCache.BudgetedCache.AccountPresent: errors of the ledger file are left out, as are the transactions of other
  processes between its own; those are in `BudgetRuns`.
- Nbd.Transmission: one connection at a time; the socket's own errors are left out.
- PageIndex.PeerReadIsWhole: entries are a set; the list form of the index file and its length check are not modelled.
