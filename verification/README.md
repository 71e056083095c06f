# Verified model of the rd-rs media cache, repair engine and Real-Debrid client

rd-rs mounts a Real-Debrid library as a file system. This project models three parts of it in Dafny
and proves what they promise.

**The read path.** A remote file is cached in a sparse file; a normalized interval list says which
bytes it holds. A download session computes the missing gaps and hands them to concurrent chunk
workers through a shared deque. Workers split slices, shrink and push back on failure, share a
multiplier and a budget of link refreshes. Threads write, record and persist ranges; readers wait for
coverage; a per-handle window reads ahead. `ByteRanges`, `RangeDb`, `CacheFile`, `SharedWork` and
`VfsReadBuffer` are imperative; `WorkerPool`, `CacheItem`, `ReadPath` and the handle machine in
`VfsBuffer` are transition systems whose events are the atomic steps of the concurrent code, so a
theorem about runs holds for every interleaving.

**Repair and refresh.** The torrent registry with its stored rows, the refresh that moves it to the
remote list, the deduplicated repair queue with its one-permit wake-up, the repair pass, and the
four-strategy cascade whose remote torrents are owned by guards. The remote service is an oracle: any
reply to any call. Its log is checked by an automaton (`Cascade.Audited`) that does not know the code.

**Bounded loops.** Token rotation, request retries, the FUSE read loop, the DNS ceiling probe, disk
eviction.

## Findings

Where the code does less than its comments or its design suggest, the code is kept as it is, a lemma
gives a run or an input that shows it, and the exact condition is proved.

- *Two workers can write the same byte* (`PoolWrites.TwoWritersOfOneByte`). When a response breaks off
  after more than one base chunk, the bytes already written go back to the deque. A step keeps one
  writer for each byte if and only if it is not such a failure (`PoolWrites.StepExclusive`). The bytes
  written are right in either case.
- *A clean exit may leave gaps* (`PoolSafety.ShortBodyLeavesGap`). Any end of body counts as success. The
  range is complete if and only if what clean ends left out was recorded by some other response
  (`PoolSafety.CleanExitIsComplete`).
- *A zero base chunk makes no progress* (`PoolTermination.PopMakesProgress`).
- *A clean item need not be persisted* (`DirtyFlag.CleanFlagStaleRow`): the flag is cleared after the
  snapshot is stored, and other threads run in between. A step keeps what is clean persisted if and only
  if it neither stores a snapshot that differs from the ranges of a clean item nor clears the flag, with
  no writer about to set it, while the row differs from the ranges (`DirtyFlag.StepCleanIsPersisted`). Restart soundness holds regardless
  (`CacheItem.RestartIsSound`).
- *A file size of 2^63 or more does not survive the signed column* (`RangeDb.ReadWriteRow`).
- *The API clients retry transient JSON errors without limit* (`Requests.NoRetriesForEver`). A client
  exceeds its `max_retries + 1` requests, and one more for a fallback, if and only if every reply within
  that count was retried and every later one is a transient JSON error (`Requests.ExceedsItsRetries`).
- *A repeated token can never be exhausted* (`Tokens.MarkingRetires`), so `unrestrict_link` ends because
  the configuration removes duplicates (`Tokens.AllDownloadTokens`).
- *A refresh can keep an old list snapshot* (`Convergence.OldSnapshotStays`), exactly when status,
  progress and ids agree (`Convergence.SnapshotIsBest`); and an entry with a repeated id could hide
  another id (`Convergence.RepeatedIdHidesAnother`), which no run produces (`RegistryRuns.RefreshInRun`).
- *Switching repair off can spend a wake-up for nothing* (`RepairQueue.SwitchedOffLosesWakeUp`): switched
  on again, and with no new request, the engine finds the queued key only at its next periodic tick. No
  other step does this (`RepairQueue.StepPending`), and the tick is always left to repair the key
  (`RepairQueue.EveryRunCatchesUp`).
- *A pass can leave a torrent under repair* (`RepairPass.PassesStayUnderRepair`): if and only if its lock
  write fails, when its job stays running too, or it turns back from an entry that was under repair
  already, for want of capacity or of both detail and id (`RepairPass.EndsUnderRepair`). Every other pass
  ends `Ok` or `Broken`, whatever later writes do (`RepairPass.PassLeaves`).
- *The cascade deletes the old remote torrents before it knows that it can replace them*
  (`RepairPass.DonePassLosesIds`, where the job ends done and the state `Ok`, and
  `RepairPass.DeferredPassLosesIds`). The entry is left with the id of a deleted torrent if and only if
  the cascade was not hopeless from the start, a deletion it reached went through, and it adopted nothing
  (`RepairPass.LostIdKept`).
- *Rows can land in another order than memory changed* (`RegistryRuns.LateRowUndoesHealth`): every write
  succeeds, and a restart brings the wrong health back. A step parts a row from its entry if and only if
  it lands an older row after the newest one, or loses the newest (`RegistryRuns.StepKept`).
- *A reader that joins a session it reaches beyond is not served by it* (`ReadPath.JoinedReaderIsLeft`).
  After a clean and complete session it goes on if and only if someone recorded what lies beyond
  (`ReadPath.JoinedReaderGoesOn`).
- *Disk eviction does not reach the cache files* (`Eviction.PlainFilesAreOutOfReach`): the walk is two
  levels deep and a torrent's file lies three deep, unless hash and name lead to a single directory
  (`Eviction.ReachOfEviction`).

## Assumptions

The base chunk is positive. A response that reaches a worker has a `Content-Range`
(`src/rd/api/methods3.rs:63-74` turns away any other), and its body is no longer than the range asked
for. While an item of a cache key is open, the key determines one content and one size: keys use the
sanitized base name (`src/fuse/read.rs:153-157`), and a live item is found by key alone
(`src/cache/cache.rs:92-97`). The rows a run starts from are in order. Each event of a transition system
is atomic.

## Model

| member | source | states |
|---|---|---|
| ByteRanges.Canonical | src/cache/bitmap.rs:8-14 | sorted, disjoint, non-adjacent, nonempty lists with equal byte sets are equal |
| ByteRanges.InsertedIsUnion | src/cache/bitmap.rs:34-63 | insertion is exactly set union and keeps the list normal |
| ByteRanges.RangeSet.Insert | src/cache/bitmap.rs:36-63 | the in-place splice computes that insertion, empty ranges included |
| ByteRanges.RangeSet.FromIntervals | src/cache/bitmap.rs:112-118 | building from a list inserts its intervals one by one |
| ByteRanges.BuildOrderIrrelevant | src/cache/bitmap.rs:112-118 | two builds agree if and only if they were given the same bytes, in whatever order |
| ByteRanges.RebuildNormal | src/cache/bitmap.rs:112-118 | rebuilding a normal list gives it back |
| ByteRanges.HasRangeIsCoverage | src/cache/bitmap.rs:66-81 | the test of one interval decides coverage of the whole range |
| ByteRanges.TotalBytesIsCardinality | src/cache/bitmap.rs:30-32 | the total is the number of bytes covered, without underflow |
| ByteRanges.FindMissing | src/cache/bitmap.rs:83-104 | the first maximal gap, or none exactly when the range is covered |
| ByteRanges.MissingSlices | src/cache/worker.rs:65-78 | the gap walk ends with the complement of the ranges, as maximal slices in order |
| ByteRanges.GapListUnique | src/cache/worker.rs:65-78 | there is only one such list |
| RangeDb.EncodeRangesBlob | src/cache/range_db.rs:162-171 | the encoder writes 16 little-endian bytes for each interval |
| RangeDb.DecodeRangesBlob | src/cache/range_db.rs:173-186 | the decoder rejects exactly the blobs that are not whole records |
| RangeDb.DecodeEncode | src/cache/range_db.rs:162-186 | decoding undoes encoding on all 64-bit intervals |
| RangeDb.EncodeDecode | src/cache/range_db.rs:162-186 | encoding undoes decoding on all whole blobs |
| RangeDb.ReadWriteRow | src/cache/range_db.rs:60-117 | a row read back gives the identical range set, and the identical size exactly below 2^63; a larger one comes back as 0 |
| RangeDb.ReadRowIsNormal | src/cache/range_db.rs:60-88 | no stored blob yields a malformed range set |
| RangeDb.RangeDb.Get | src/cache/range_db.rs:60-88 | absent rows and other schema versions give nothing, malformed blobs an error |
| RangeDb.RangeDb.Upsert | src/cache/range_db.rs:91-117 | replaces one row and leaves the others |
| RangeDb.RangeDb.DeleteKeys | src/cache/range_db.rs:119-134 | removes exactly the named rows and counts those that existed |
| CacheFile.CacheFile.OpenOrCreate | src/cache/item.rs:62-135 | an error exactly for a malformed row of this format, and then no item; no row, or one of another format or size, gives no ranges; a row of this size gives exactly its bytes; ranges written for a size come back for that size only, and truthful ones are truthful again; a row of another size is deleted |
| CacheItem.RestoredMeaning | src/cache/item.rs:83-115 | when ranges come back from a row, as which bytes, and when opening fails |
| CacheItem.RestoredAfterWrite | src/cache/item.rs:83-115 | what was written for a size below 2^63 is restored for that size, and nothing for any other |
| CacheFile.CacheFile.WriteRange | src/cache/item.rs:201-224 | data goes to the file, then to the ranges, then perhaps to the row; a truthful file stays truthful |
| CacheFile.CacheFile.WriteAll | src/cache/item.rs:209-214 | exactly the addressed bytes change |
| CacheFile.CacheFile.FlushRanges | src/cache/item.rs:226-256 | writes the row exactly when dirty and forced or due, and clears the flag then |
| CacheFile.CacheFile.Release | src/cache/item.rs:148-158 | only closing the last handle forces a flush |
| CacheFile.CacheFile.ReadFromFile | src/cache/item.rs:185-199 | reads the requested slice clamped to the end of the file |
| CacheFile.CacheFile.ReadIfCovered | src/cache/item_read_at.rs:28-41 | answers without a download exactly when the range is covered, with the remote bytes |
| CacheItem.StepInv | src/cache/item.rs:201-256 | every atomic step of writers, flushers, readers, crashes and reopenings keeps ranges, snapshots and row truthful, and recorded ranges only grow |
| CacheItem.ClaimedBytesAreRight | src/cache/item.rs:201-224 | in every reachable state each recorded byte is on disk and is the remote byte |
| CacheItem.ReadsAreExact | src/cache/item_read_at.rs:28-140 | every answer is exactly the remote slice clamped to the file |
| CacheItem.CoveredReadGoesOn | src/cache/item_read_at.rs:73-140 | a reader that saw its range covered can always finish |
| CacheItem.NeverStuck | src/cache/item_read_at.rs:28-140 | no thread of a reachable state is stuck: without an error it is over, waits until its range is covered, or can go on; a forced flush goes on to its snapshot if and only if the item is dirty |
| CacheItem.RestartIsSound | src/cache/item.rs:83-115 | after a crash at any point a reopened item claims no byte it does not hold |
| DirtyFlag.StepCleanIsPersisted | src/cache/item.rs:217-256 | if every clean item without a writer about to mark it is persisted, a step keeps that if and only if it neither stores a snapshot that differs from such an item nor clears the flag, with no writer about to set it, while the row differs |
| DirtyFlag.CarefulRunPersists | src/cache/item.rs:217-256 | over every run from the start without such steps, what is clean is persisted |
| DirtyFlag.StoreThenClear | src/cache/item.rs:238-250 | with nothing in between, a flush leaves the item persisted if and only if nothing was recorded since the snapshot |
| DirtyFlag.CleanFlagStaleRow | src/cache/item.rs:238-250 | a run from the start that ends with every thread gone, the item clean, and the row short of a byte |
| DirtyFlag.ForcedFlushPersists | src/cache/item.rs:226-256 | a forced flush of a dirty item does not skip, and with nothing in between leaves it clean and persisted |
| SharedWork.SliceQueue.PopChunk | src/cache/worker.rs:119-133 | popping on the locked deque is the pool's pop step |
| SharedWork.SliceQueue.CutBack | src/cache/worker.rs:317-327 | shrinking and pushing back is the pool's failed attempt |
| SharedWork.SliceQueue.Grow | src/cache/worker.rs:336-339 | the multiplier grows on success, up to 16 |
| SharedWork.LiveLink.AttemptRefresh | src/cache/link_heal.rs:17-52 | a heal is spent exactly when the link is replaced |
| WorkerPool.ChunkEnd | src/cache/worker.rs:122-124 | the chunk stays in its slice and is not empty when base and multiplier are positive |
| PoolSafety.StepWellFormed | src/cache/worker.rs:105-341 | chunks stay nonempty and in the file, the multiplier in 1..16, heals left and done add up to 3, and the refresh lock has one holder |
| PoolSafety.StepAccounts | src/cache/worker.rs:119-327 | no step creates, loses or duplicates work |
| PoolSafety.Disjoint | src/cache/worker.rs:119-133 | a byte in one worker's hands is nowhere else |
| PoolSafety.StepLedger | src/cache/worker.rs:253-306 | recorded bytes are those of clean, broken and running responses, and finished chunks are delivered or short |
| PoolSafety.StepInv | src/cache/worker.rs:105-341 | every event keeps the whole invariant |
| PoolSafety.PoolSafe | src/cache/worker.rs:84-341 | in every reachable state each missing byte is in exactly one queued, held, finished or abandoned place, and no other byte is |
| PoolSafety.CleanExitIsComplete | src/cache/worker.rs:345-362 | after a clean exit the deque is empty, and the range complete if and only if no byte that was left out is still missing |
| PoolSafety.ShortBodyLeavesGap | src/cache/worker.rs:281-306 | a run from the start that exits cleanly without its one missing byte |
| PoolTermination.StepCloser | src/cache/worker.rs:135-339 | every event lowers (heals left, outstanding bytes, phases, body bytes) lexicographically |
| PoolTermination.PoolTerminates | src/cache/worker.rs:107-341 | no interleaving makes more events than a number fixed at the start |
| PoolTermination.NeverStuck | src/cache/worker.rs:107-341 | a worker that has not stopped can itself go on, or waits for the refresh lock and its holder can |
| PoolTermination.QuietMeansStopped | src/cache/worker.rs:107-341 | no deadlock: in any run from the start no worker can act any more if and only if all have stopped |
| PoolTermination.PopMakesProgress | src/cache/worker.rs:122-133 | a pop takes bytes off the deque if and only if the base chunk is positive |
| PoolRetries.GivesUpAfterThree | src/cache/worker.rs:135-341 | in every run a worker fails if and only if its last three attempts failed, counted from where it took the chunk or had its link refreshed |
| PoolRetries.ChunksAreLostToThreeFailures | src/cache/worker.rs:135-362 | a session that is not cancelled gives up a chunk if and only if some worker failed so |
| PoolWrites.StepExclusive | src/cache/worker.rs:308-327 | one writer for each byte is kept by a step if and only if no response breaks off beyond one base chunk |
| PoolWrites.GentleRunExclusive | src/cache/worker.rs:253-327 | in every run of a session, from its start, without such failures no two workers write the same byte |
| PoolWrites.TwoWritersOfOneByte | src/cache/worker.rs:308-327 | a reachable state in which two workers have written byte 2 |
| ReadPath.StepInv | src/cache/item_read_at.rs:73-218 | sessions, readers and the item keep each other's invariants |
| ReadPath.CleanSessionServes | src/cache/item_read_at.rs:73-140 | in any state that keeps the invariant a clean and complete session has served its range and releases its readers |
| ReadPath.OwnSessionCovers | src/cache/item_read_at.rs:54-72 | the session a waiting reader starts contains its read, and reaches the read-ahead beyond it or the end of the file |
| ReadPath.CleanSessionServesReaders | src/cache/item_read_at.rs:28-140 | end to end, over all runs: a session reaches exactly the read-ahead beyond its read or the end of the file; once it is clean and complete, the reader that asked for it and any other that waits inside it is released; every answer is exact |
| ReadPath.JoinedReaderGoesOn | src/cache/item_read_at.rs:46-140 | a reader inside a clean and complete session is released if and only if what it wants beyond the session's end is recorded |
| ReadPath.JoinedReaderIsLeft | src/cache/item_read_at.rs:46-140 | a run from the start that ends with a clean and complete session and its reader waiting |
| VfsBuffer.LengthsAgree | src/fuse/vfs_read_buffer.rs:45-60 | the need is the length of the requested slice; the fill is at least the need and at most 32 bits, and reads ahead as far as the window goes, or to the end of the file, and no further |
| VfsBuffer.ClampedBuffer | src/fuse/vfs_read_buffer.rs:15-17 | a configured size within the bounds is kept, another becomes the nearer bound |
| VfsBuffer.NextReadHits | src/fuse/vfs_read_buffer.rs:62-104 | the read that goes on where a fetch left off is a hit if the window holds what it needs |
| VfsBuffer.PreparedAgrees | src/fuse/vfs_read_buffer.rs:62-97 | a hit is the requested slice and the window goes on agreeing with the file |
| VfsBuffer.VfsReadBuffer.PrepareRead | src/fuse/vfs_read_buffer.rs:62-97 | the in-place window computes the specified hit or miss |
| VfsBuffer.VfsReadBuffer.AfterFetch | src/fuse/vfs_read_buffer.rs:99-104 | what the reply does not take becomes the window |
| VfsBuffer.BufferIsInvisible | src/fuse/read.rs:187-217 | under any interleaving of reads on a handle each reply equals a direct read |
| FuseRead.Reader.TryFetch | src/fuse/read.rs:220-415 | a reply if and only if the first attempt of the four that decides has a usable link and is filled; EINTR, EIO and a repair likewise, and EIO if none decides; a reply is the requested slice |
| FuseRead.Reader.Pass | src/fuse/read.rs:76-417 | exactly when a pass replies, is interrupted, fails or wants a repair, and after how many attempts |
| FuseRead.Reader.AwaitRepair | src/fuse/read.rs:103-118 | one wait per read, and a second pass exactly when it was cured |
| FuseRead.Reader.Read | src/fuse/read.rs:58-417 | the exact condition for a reply, EINTR and EIO, and for a second pass; at most two passes, eight attempts and one wait; replies are exact; ENOENT for a present file has asked for a repair |
| RdErrors.FromCode | src/rd/client/errors.rs:24-51 | which codes are bandwidth limits and which are retried |
| RdErrors.FromHeader | src/rd/client/errors.rs:75-86 | only the header text makes a byte limit; exactly which headers and statuses a fresh link may cure |
| Cascade.BatchesPartition | src/repair/strategies.rs:275-280 | batches concatenate to the selection, none empty or too long and all but the last full |
| Cascade.Chunks | src/repair/strategies.rs:275-280 | the loop cuts exactly these batches |
| Cascade.PlanIsShort | src/repair/strategies.rs:96-341 | at most 2 + n + ceil(n/batch) magnets |
| Cascade.EveryMagnetIsReleasedOnce | src/repair/ephemeral_torrent.rs:105-165 | in an orderly log the ids created are the ids released, each once, but for the one held |
| Cascade.CutOffAnywhere | src/repair/engine/repair_one.rs:132-146 | a repair cut off after any call leaves no magnet behind |
| Cascade.CutWhileAwaiting | src/repair/engine/repair_one.rs:132-146 | one cut off by the time limit has adopted nothing and met no bandwidth limit |
| Cascade.EphemeralTorrent.Dismiss | src/repair/ephemeral_torrent.rs:110-113 | adopts the id exactly once |
| Cascade.EphemeralTorrent.DeleteEphemeral | src/repair/ephemeral_torrent.rs:120-129 | the id stays held after an error |
| Cascade.EphemeralTorrent.Drop | src/repair/ephemeral_torrent.rs:132-165 | schedules deletion exactly when the id is held |
| Cascade.InfoReady | src/repair/ephemeral_torrent.rs:74-94 | computes the specified polls; exhaustion depends only on the restriction |
| Cascade.WaitAudited | src/repair/ephemeral_torrent.rs:74-94 | three polls at most, fewer only for a ready magnet or an error |
| Cascade.Conclude | src/repair/strategies.rs:177-201 | computes the specified log and result |
| Cascade.ConcludeAudited | src/repair/strategies.rs:177-201 | the magnet is adopted, deleted or scheduled for deletion, whatever the polls bring |
| Cascade.TryMagnet | src/repair/strategies.rs:163-201 | computes the specified log and result of one magnet |
| Cascade.AttemptAudited | src/repair/strategies.rs:163-201 | one magnet, released or adopted, with a bandwidth limit noted exactly when the result says so |
| Cascade.Reinsert | src/repair/strategies.rs:42-93 | computes the specified log and result of strategy 1 |
| Cascade.ReinsertAudited | src/repair/strategies.rs:42-93 | every error is final, a ready magnet is adopted, and nothing is held at the end |
| Cascade.OldTorrentsGoFirst | src/repair/strategies.rs:52-56 | the log begins with the deletion of every old torrent in order, and has no later one |
| Cascade.EachPart | src/repair/strategies.rs:159-215 | the loop computes the specified log and result of strategies 2 and 4 |
| Cascade.PartsAudited | src/repair/strategies.rs:159-215 | succeeds if and only if every part was ready, and goes on only after all were tried |
| Cascade.ArchiveAll | src/repair/strategies.rs:217-272 | computes the specified log and result of strategy 3 |
| Cascade.ArchiveAudited | src/repair/strategies.rs:217-272 | adopts the archive when it is ready |
| Detect.DuplicateSelectedFileIds | src/repair/detect.rs:110-118 | finds a repeated id if and only if there is one |
| Detect.LooksPlayable | src/repair/detect.rs:120-135 | the chain of endings is membership in the list of playable endings |
| Detect.HasNonPlayableSelected | src/repair/detect.rs:138-143 | whether some selected file cannot be played |
| Detect.UnassignedSelectedLinkCount | src/repair/detect.rs:90-108 | the loop counts the selected files whose link slot is missing or empty |
| Detect.PeriodicRepairEligible | src/repair/detect.rs:19-34 | decides exactly whether the scan takes a torrent up |
| Cascade.TryBatches | src/repair/strategies.rs:274-340 | computes the specified batches and the failure that ends the cascade |
| Cascade.BatchesFaithful | src/repair/strategies.rs:274-340 | batches only for more than one file; the last failure comes only after the whole plan |
| Cascade.RepairParts | src/repair/strategies.rs:159-340 | computes strategies 2 to 4 in order |
| Cascade.PartsFaithful | src/repair/strategies.rs:159-340 | each outcome of strategies 2 to 4 is faithful to the log |
| Cascade.ExecuteCascade | src/repair/strategies.rs:96-341 | computes the specified log and outcome, which are faithful |
| Cascade.CascadeIsFaithful | src/repair/strategies.rs:96-341 | every log entry is the service's answer, in order, with nothing held at the end; DeferBandwidth if and only if a call after the first deletions hit a limit; Success with ids if and only if one magnet was adopted; Success without if and only if every file or every batch was ready; a failure is that of the last call, of the restriction after three polls, or comes after the whole plan was tried |
| Cascade.ErrorsDecide | src/repair/strategies.rs:26-340 | from the log alone: a failed call for the first magnet, a failed awaited deletion or a bandwidth limit ends the cascade with that error before another magnet is asked for; any other failed last call means that the whole plan was tried and nothing worked |
| Registry.TorrentManager.UpdateTorrentState | src/torrent/state_ops.rs:87-147 | the new entry and row, and the repair clock |
| Registry.TorrentManager.MarkFileBroken | src/torrent/state_ops.rs:55-84 | adds one broken path |
| Registry.TorrentManager.PersistTorrentSnapshot | src/torrent/state_ops.rs:36-52 | entry in memory, row if the database takes it |
| Registry.TorrentManager.ReplaceRdIds | src/torrent/state_ops.rs:14-33 | new ids, stale detail and file states dropped |
| Registry.TorrentManager.EnsureTorrentInfo | src/torrent/mod.rs:322-364 | loads detail once, and gives nothing only without an entry or an id |
| Registry.TorrentManager.LoadFromDb | src/torrent/mod.rs:226-270 | memory is rebuilt from the rows |
| Torrents.RowRoundTrip | src/torrent/mod.rs:226-270 | storing and loading keeps all but the detail and what only the list knows; loading and storing keeps the row |
| RegistryRuns.StepInv | src/torrent/state_ops.rs:14-147 | every operation, on copies however stale, keeps health in memory, in the rows and in the rows under way |
| RegistryRuns.StepKept | src/torrent/state_ops.rs:120-137 | entries and rows that keep together are parted by a step if and only if an older row lands after the newest, or the newest is lost |
| RegistryRuns.RowMirrors | src/torrent/state_ops.rs:120-137 | in every run a row says what memory says if and only if the last writers of both wrote the same |
| RegistryRuns.HealthInvariant | src/torrent/state_ops.rs:96-120 | over all runs the repair clock is set if and only if under repair, and a reason implies broken, also after a restart |
| RegistryRuns.RestartKeepsHealth | src/torrent/mod.rs:226-270 | in a run without such steps a restart gives every torrent with no row under way back with its health |
| RegistryRuns.PromptRunIsCareful | src/torrent/state_ops.rs:122-137 | a run whose writes succeed, with each torrent's rows landing in order, has no such step |
| RegistryRuns.LateRowUndoesHealth | src/torrent/state_ops.rs:122-137 | a run whose writes all succeed after which a restart brings the wrong health back |
| RegistryRuns.RefreshInRun | src/torrent/refresh/mod.rs:155-241 | in every run a refresh gives a listed torrent exactly its group's ids |
| RepairPass.Prepare | src/repair/engine/repair_one.rs:81-125 | the entry after the preflight, with its links and file states, decided by what the preflight found |
| RepairPass.Admit | src/repair/engine/repair_one.rs:17-79 | which passes end before the lock, and as what |
| RepairPass.FindingDecides | src/repair/engine/repair_one.rs:81-125 | a locked pass with detail ends done and Ok, with the found links and states and its ids, if and only if the preflight verified the torrent; failed and Broken without a reason, detail and states kept, if and only if it met a limit; a cascade runs if and only if neither, or without detail, and on the found links |
| RepairPass.Settle | src/repair/engine/repair_one.rs:148-209 | each outcome leaves its state, reason, repair time, ids and row |
| RepairPass.RunCascade | src/repair/engine/repair_one.rs:127-146 | no outcome exactly when the time limit falls while a reply is awaited |
| RepairPass.Locked | src/repair/engine/repair_one.rs:81-209 | a locked pass takes the course its surroundings decide and leaves what that course leaves |
| RepairPass.RepairOne | src/repair/engine/repair_one.rs:17-210 | each result if and only if its guard holds; what the entry, its row, its job and the service are left with; other torrents are untouched |
| RepairPass.CascadeAudited | src/repair/engine/repair_one.rs:127-146 | the cascade of a pass, cut off or not, holds no magnet at its end |
| RepairPass.PassLeaves | src/repair/engine/repair_one.rs:88-209 | a pass with its lock ends Ok exactly for a verified or successful repair, otherwise Broken; a bandwidth limit leaves no reason and an eligible torrent; new ids exactly for an adoption |
| RepairPass.PassAnswers | src/repair/engine/repair_one.rs:17-210 | each result of a pass if and only if its guard holds, with all that it leaves |
| RepairPass.EndsUnderRepair | src/repair/engine/repair_one.rs:22-79 | exactly when a pass leaves the torrent under repair |
| RepairPass.PassesStayUnderRepair | src/repair/engine/repair_one.rs:53-79 | two passes that do |
| RepairPass.LostIdKept | src/repair/strategies.rs:50-93 | the entry is left with a deleted id if and only if a deletion that was reached went through and nothing was adopted |
| RepairPass.DonePassLosesIds | src/repair/strategies.rs:50-93 | a pass that ends done and Ok with its only id deleted |
| RepairPass.DeferredPassLosesIds | src/repair/strategies.rs:50-66 | a pass deferred for bandwidth after its only id was deleted |
| RepairPass.BrokenIsEligible | src/repair/detect.rs:19-34 | a broken torrent without a reason is taken up by the next scan |
| Lists.PushedAllIsUnion | src/torrent/repair_enqueue.rs:37-50 | enqueuing many loses, moves and repeats nothing |
| Lists.FilteredConcat | src/torrent/repair_enqueue.rs:37-50 | filtering is piecewise |
| RepairQueue.WithoutIsRemove | src/torrent/repair_enqueue.rs:64-66 | removing one position of a deduplicated queue removes the key |
| RepairQueue.PriorityQueue.EnqueueRepair | src/torrent/mod.rs:367-374 | appended once, and a permit stored |
| RepairQueue.PriorityQueue.EnqueueRepairFront | src/torrent/repair_enqueue.rs:56-70 | moved to the front, no repeats |
| RepairQueue.PriorityQueue.EnqueueRepairAll | src/torrent/repair_enqueue.rs:37-52 | a key is added if and only if it is listed and eligible, or all are wanted; nothing is lost, moved or repeated |
| RepairQueue.PriorityQueue.Drain | src/repair/engine/mod.rs:71-79 | a session takes the whole queue |
| RepairQueue.StepInv | src/repair/engine/mod.rs:65-203 | no repeats, and no pledged key lost before shutdown |
| RepairQueue.StepPending | src/repair/engine/mod.rs:65-79 | a queued key loses its permit-based wake-up in a step if and only if a session finds repair switched off |
| RepairQueue.QueueIsSafe | src/repair/engine/mod.rs:130-203 | both over all runs from the start |
| RepairQueue.WokenSessionsRepairWhatWasAsked | src/repair/engine/mod.rs:71-110 | in every run without a timer event, each key a session takes up was put in the queue before |
| RepairQueue.CatchesUp | src/repair/engine/mod.rs:154-203 | from any state that keeps the invariant, with repair enabled and before shutdown, the engine's own moves empty the queue and repair every pledged key |
| RepairQueue.EveryRunCatchesUp | src/repair/engine/mod.rs:130-203 | so every run from the start can be completed, whether ticks come early or not |
| RepairQueue.SwitchedOffLosesWakeUp | src/repair/engine/mod.rs:65-69 | a run from the start that ends with a queued key and the permit spent, when only the periodic tick is left to find the key |
| Refresh.GroupedMeaning | src/torrent/refresh/diff.rs:23-39 | one group for each key, with all its ids and the first of its most advanced entries |
| Refresh.GroupsAreFewer | src/torrent/refresh/diff.rs:76 | the duplicate count does not underflow |
| Refresh.Diff | src/torrent/refresh/diff.rs:19-84 | added, removed and changed entries and the duplicate count, exactly |
| Refresh.Apply | src/torrent/refresh/mod.rs:174-256 | the loops over the diff compute the merged registry and rows |
| Refresh.RunOnce | src/torrent/refresh/mod.rs:88-260 | errored entries are filtered, the diff is applied, and exactly the specified deletions are asked for |
| Refresh.DeletionsAreExact | src/torrent/refresh/mod.rs:105-153 | an id is asked for if and only if the list has it errored, where that is configured, or stalled, and no torrent under repair has it |
| Convergence.MergedAt | src/torrent/refresh/mod.rs:177-241 | what happens to each key |
| Convergence.RefreshConverges | src/torrent/refresh/mod.rs:155-241 | keys are the listed ones and those under repair; status, progress and ids agree; the same list again changes nothing; duplicates and keys add up |
| Convergence.IdsConverge | src/torrent/refresh/diff.rs:66-73 | each listed entry has exactly its group's ids |
| Convergence.IdsComparisonIsExact | src/torrent/refresh/diff.rs:66-67 | the comparison is exact if and only if no id repeats |
| Convergence.HealthIsKept | src/torrent/refresh/mod.rs:210-220 | a refresh never touches the health of a torrent it keeps |
| Convergence.AddedStartsFine | src/torrent/refresh/mod.rs:177-196 | a new torrent starts Ok with its group's ids, nothing known against it, and of no interest to the repair scan |
| Convergence.DetailFollowsIds | src/torrent/refresh/mod.rs:197-225 | detail is kept if and only if the ids are |
| Convergence.SnapshotIsBest | src/torrent/refresh/diff.rs:64-73 | exactly when the whole list snapshot is the group's best |
| Convergence.OldSnapshotStays | src/torrent/refresh/diff.rs:64-73 | a list for which an old snapshot stays |
| Convergence.RepeatedIdHidesAnother | src/torrent/refresh/diff.rs:66-67 | ids for which the comparison is fooled |
| Tokens.AllDownloadTokens | src/config/load.rs:53-61 | primary first, every token once, in order |
| Tokens.TokenPool.DownloadBearer | src/rd/token_pool.rs:53-70 | the first open slot in cyclic order, or the current one when none is open |
| Tokens.TokenPool.EligibleTokensInOrder | src/rd/token_pool.rs:78-87 | exactly the open slots in configured order |
| Tokens.TokenPool.MarkExhausted | src/rd/token_pool.rs:103-112 | marks the first slot that holds the token |
| Tokens.TokenPool.AnyNonExhausted | src/rd/token_pool.rs:123-130 | whether a slot is open |
| Tokens.TokenPool.UpdateTokens | src/rd/token_pool.rs:144-157 | a new pool with every flag cleared |
| Tokens.MarkFirst | src/rd/token_pool.rs:78-112 | marking the first eligible token takes exactly it off the list |
| Tokens.MarkingRetires | src/rd/token_pool.rs:103-112 | marking retires tokens if and only if none repeats |
| Tokens.UnrestrictLink | src/rd/api/methods2.rs:37-83 | tries a prefix of the eligible tokens, each once, and answers as the simple recursion does |
| Requests.BudgetStep | src/rd/client/exec.rs:71-141 | each turn keeps within the request budget and moves on |
| Requests.ExecuteDownload | src/rd/client/exec.rs:56-145 | at most n*(max_retries+1)+1 requests; it goes on only after network failures and byte limits, and gives up on a network failure only after max_retries+1 in a row; tokens that hit their limit are different; the last reply decides the error, and a bandwidth limit ends it only with no open token left or every slot tried |
| Requests.OneReply | src/rd/client/exec.rs:87-201 | for a client without rotation: after which replies it asks again, and which error each other reply becomes |
| Requests.AsksAgain | src/rd/client/exec.rs:87-201 | a client without rotation asks again if and only if every reply was a transient JSON error or a failure that came while attempts were left |
| Requests.ExceedsItsRetries | src/rd/client/exec.rs:87-201 | exactly when it makes more than max_retries + 1 requests, not counting the fallback |
| Requests.OnlyTransientsAreFree | src/rd/client/exec.rs:87-201 | an API client still running has had at most max_retries replies that were not transient JSON errors |
| Requests.TransientsNeverEnd | src/rd/client/exec.rs:170-187 | transient JSON errors keep a client asking for ever |
| Requests.NoRetriesForEver | src/rd/client/exec.rs:170-187 | a client without retries that makes any number of requests |
| Probe.ProbesTheLeastClosedBound | src/rd/cdn/probe.rs:26-106 | under any interleaving a finished probe covered exactly 1..N, N the least bound of at least 100 that no reachable host pushes further |
| Probe.ProbeEnds | src/rd/cdn/probe.rs:35-106 | with finitely many reachable hosts there is no infinite run |
| Probe.NeverStuck | src/rd/cdn/probe.rs:35-106 | until it is over some step is possible |
| Probe.StepCloser | src/rd/cdn/probe.rs:74-91 | every step lowers the measure, lost compare-and-swaps included |
| Eviction.EvictDiskLru | src/cache/eviction.rs:71-129 | oldest first, only files without extension two levels deep, never pinned or young, no more than needed, and all it could when over the threshold |
| Eviction.Gather | src/cache/eviction.rs:76-104 | the walk takes exactly the candidates and adds up their blocks |
| Eviction.SortedMeaning | src/cache/eviction.rs:106 | the sort orders by age and keeps all entries |
| Eviction.SortIsStable | src/cache/eviction.rs:106-110 | entries of one age keep their order |
| Eviction.ReachOfEviction | src/cache/eviction.rs:79-100 | a torrent's cache file is a candidate if and only if hash and name lead to a single directory, "." and ".." resolved, and it has no extension |
| Eviction.PlainFilesAreOutOfReach | src/cache/eviction.rs:79-100 | with an ordinary hash and name the file lies three levels deep and is no candidate |

## Left out

- HTTP, TLS, JSON, SQLite, timers, logging, hook commands and the FUSE kernel protocol: oracles, maps and atomic steps stand for them.
- Pauses, semaphores, backoff and polling intervals: they only delay steps, which may come at any time.
- Physical durability: a crash keeps file and row as they are.
- Symbolic links in the cache directory.
- LRU eviction, `invalidate` and failed or partial purges inside the restart run: eviction keeps the row of a file it removes, and `invalidate` can race with open handles.
- The choice of which running session a reader joins: sessions on one item run side by side in `ReadPath`.
- The moment between resetting the multiplier and pushing the rest of a chunk back: one event of `WorkerPool`. A pop or a growth in between only changes how slices are cut, and the multiplier stays in 1..16.
- Empty body fragments: they write and record nothing.
- Sums of offset and size beyond 64 bits in `read_at` and `run_downloader`; the window code saturates and is modelled so.
- RangeDb.RangeDb.Get: SQL failures are not modelled, because the table is a map; writes to the torrents table may fail.
- CacheFile.CacheFile.OpenOrCreate: growing, shrinking and purging the file itself is an event of `CacheItem`, because an array has one length.
- Preflight link checks: what they find is an oracle; what they do to the entry is kept.
- Cascade.ExecuteCascade: a call in flight when the repair is cut off may still reach the service; a magnet it creates has no guard yet, and its log shows neither. Deletion itself is best effort.
- RegistryRuns.RefreshInRun: taking the diff and applying it to memory are one event; its rows land later.
- RepairPass.RepairOne: competing writers during the pass are not modelled here, because `RegistryRuns` covers every order of operations for health.
- Refresh.Diff: the order of the lists and the sorting of ids are not kept, because the first comes from hash iteration.
- RepairQueue.PriorityQueue.EnqueueRepairAll: clearing unrepairable reasons first is an event of `RegistryRuns`.
- Requests.ExecuteDownload: other tasks that clear or replace the pool during the call are not modelled; tokens they mark only shorten it.
- Manual rotation of the pool and the daily clearing of its flags: single assignments; the current position is unbounded.
- FuseRead.Reader.Read: other reads on the same handle are not interleaved here, because `VfsBuffer.BufferIsInvisible` covers them.
- Capacity and rate limits, CDN host ranking, display names, inode numbers, directory listing, configuration parsing and the command line: easy on their own or foreign library semantics.
