# spotflowd: a verified model

spotflowd is a store-and-forward daemon. It buffers log entries in memory and in
numbered chunk files, aggregates metrics into windows, uploads kernel crash dumps,
and publishes all of it over one MQTT connection. This project models the parts
whose guarantees span many steps, and proves them.

| files | what they model |
|---|---|
| `SpoolNames`, `Spool`, `SpoolDeque` | the two-tier log buffer, its directory of chunk files, and the plain deque it refines |
| `Orchestrator`, `LogLedger`, `LogRuns`, `LogHolder`, `LogEnds`, `LogCrash`, `LogRace`, `PublishTick` | ingestion, publishing, shutdown, exit and restart as interleaved atomic steps over that buffer; the ledger of every entry; what a lock section, a shutdown, a cancelled tick and a restart achieve from beginning to end; crash points; the two races of eviction with publishing; and the tick as an imperative method that is a run of the machine |
| `StreamKey`, `Aggregation`, `Metrics` | stream keys, windowed aggregation, sequence numbers, the pending queue, clean restarts |
| `Fnv`, `CoreDump`, `CrashDump` | crash-dump ids, chunking and reassembly, and the publish, record, persist, delete protocol |
| `Utf8`, `Ansi`, `Syslog`, `SyslogRoundTrip`, `SyslogForms` | the byte-level escape stripper and the syslog line parsers |
| `Thermal` | label disambiguation of thermal zones |
| `Prelude`, `Decimal`, `LogEntry` | splitting into pieces, counting, decimal numerals and byte-wise order, log entries |

Conventions. The spool directory is a map from file name to bytes. Entry lists are
encoded by any `Codec` whose decoder undoes its encoder. Words are unbounded
integers with wrap-around written out where it matters; f64 values are reals.
Clocks, listings and the outcome of each hand-off are parameters or arbitrary
choices. In the log machine every event is one atomic section of the program: the
lock holder's pushes and single directory scans and file operations, and the
publisher's unlocked reads, hand-offs and deletions. Cancellation is possible at
the await points of the publish future, and the process may end between any two
steps.

What turned out not to hold unconditionally:

- A drained vector longer than one batch can lose its later batches: some run
  abandons an entry exactly when the memory queue may exceed 200 entries
  (`LogRuns.AbandonsIffLargeMemory`).
- Deletion is by path and a freed chunk number is used again, so evicting the chunk
  that is being published can make the publisher delete a newer chunk instead; no
  configuration is safe (`LogRace.NameReuseLosesAnEntry`). A slice that is about to be
  numbered is at risk exactly when the number before the evicted chunk's is the largest
  on disk and the publisher deletes before another slice is begun
  (`LogRace.SliceAtRiskIff`), a wrong deletion without the lock is possible exactly when
  such a state can be reached (`LogRace.ClobbersIffExposable`), and while a number as
  high stays on disk there is none (`LogRace.SparedWhileHigherStays`).
- The publisher deletes without the lock, so the chunk listed for eviction can be gone
  when it is removed. The flush then fails: the slices it had in hand and the entry
  being pushed are dropped (`LogRace.FailedFlushLosesAll`). This can happen exactly when
  the listed chunk is the one being read, sent or deleted (`LogRace.EvictionMissesIff`).
- Name order is number order only below ten digits (`SpoolNames.NameOrderLimit`).
- The comment in `strip_ansi` says only ASCII bytes are skipped. An introducer
  directly followed by a non-ASCII character drops that character's first byte, and
  then the whole text becomes empty (`Ansi.StripAnsiExact`). A second pass changes the
  result exactly when the characters kept from the input spell out an octal introducer
  again (`Ansi.IdempotentIff`).
- Numbers handed off by a publish that failed part-way can be assigned again after a
  clean restart (`Metrics.FailedPublishReusesNumber`): some continuation does so exactly
  when nothing completed since the last save and a failed publish has handed something
  off since then (`Metrics.NumbersReusedIff`, and over whole histories
  `Metrics.NeverReusedIff`).
- Records are told apart by name and modification time only, so of two files that share
  both, the second is deleted unsent (`CrashDump.SecondRecordGoesUnsent`). Every file
  goes only after it was sent itself exactly when nothing is deleted or records with one
  id are one file (`CrashDump.FilesGoSentIff`).
- Two streams with clean labels share a key exactly when the longer name ends in the
  first labels of the other stream as a key shows them (`StreamKey.SameKeyIff`), and
  label order matters exactly when one key has two values
  (`StreamKey.OrderIrrelevantIff`).
- Thermal labels are distinct exactly when no single type looks like an indexed
  duplicate (`Thermal.DistinctIff`).

## Model

| member | source | states |
|---|---|---|
| SpoolNames.NameOrder | src/buffer.rs:24-37 | for numbers below 10^10, byte-wise order of the zero-padded names is numeric order |
| SpoolNames.NameOrderLimit | src/buffer.rs:33-35 | that holds for all numbers below a bound if and only if the bound is at most 10^10 |
| SpoolNames.ChunkNameRecognised | src/buffer.rs:54-106 | a name built from n is a chunk, and n is read back from it exactly when it fits u64 |
| SpoolNames.TmpNameIgnored | src/buffer.rs:97-106 | a leftover temporary file is neither a chunk nor counted in the numbering |
| SpoolNames.ChunkNameForm | src/buffer.rs:54-75 | below 10^10 a chunk name is the ten decimal digits of its number and ".cbor", and the temporary name adds ".tmp" |
| SpoolNames.ChunkFileIff | src/buffer.rs:97-106 | a name is a chunk if and only if it is digits, at least one, and ".cbor"; its number is what the part before ".cbor" parses to as u64 |
| Decimal.ParseUnsignedIff | src/buffer.rs:61-70 | such a part parses to n if and only if n is in range and it is n zero-padded to some width, perhaps after a plus sign |
| Spool.NextNameFresh | src/buffer.rs:54-75 | the next name never collides with a file on disk, whatever was deleted before |
| Spool.SpoolDir.ChunkPaths | src/buffer.rs:24-37 | the listing holds exactly the chunk files, sorted, so its head is the newest (or oldest) one |
| Spool.SpoolDir.TotalSize | src/buffer.rs:39-52 | the size is the sum over all files, independent of listing order |
| Spool.SpoolDir.NextSeq | src/buffer.rs:54-75 | the scan yields one more than the largest number on disk, or 1 |
| Spool.SpoolDir.DropOldest | src/buffer.rs:77-95 | exactly the least chunk name is removed; nothing if there is none |
| Spool.SpoolDir.MakeRoom | src/buffer.rs:164-172 | the eviction loop ends and leaves what repeated removal of the oldest chunk leaves |
| Spool.Buffer.constructor | src/buffer.rs:122-132 | the startup scan sets the shortcut flag exactly when chunks exist |
| Spool.Buffer.Push | src/buffer.rs:134-142 | a full queue is flushed first; the new memory, directory and flag are stated outright |
| Spool.Buffer.FlushMemoryToDisk | src/buffer.rs:144-155 | memory becomes empty and its pieces are written in order, each with its own eviction |
| Spool.Buffer.WriteChunk | src/buffer.rs:157-191 | evict, then exactly one fresh chunk file holding the encoded entries, and no temporary file of that name |
| Spool.Buffer.DrainMemory | src/buffer.rs:197-201 | returns all of memory in order and empties it |
| Spool.Buffer.NextDiskChunk | src/buffer.rs:203-216 | the answer is always the newest chunk on disk, so the shortcut never changes it |
| Spool.WrittenHasChunk | src/buffer.rs:160-184 | after a write there is a chunk, so the flag may not be cleared |
| SpoolDeque.DequeExists | src/buffer.rs:24-37 | a directory is a deque of chunks if and only if all its chunks have ten-digit names |
| SpoolDeque.DequeUnique | src/buffer.rs:24-37 | and only one |
| SpoolDeque.FrontIsOldest | src/buffer.rs:77-95 | eviction pops the smallest number and leaves all other files alone |
| SpoolDeque.BackIsNewest | src/buffer.rs:203-216 | publishing takes the largest number |
| SpoolDeque.EvictCount | src/buffer.rs:164-172 | the dropped prefix is sufficient and no shorter one is |
| SpoolDeque.EvictionPopsFront | src/buffer.rs:164-172 | the eviction loop drops exactly that prefix |
| SpoolDeque.WritePushesBack | src/buffer.rs:160-191 | a written chunk is fresh, strictly newest, and appended to what eviction leaves |
| SpoolDeque.WriteSizeBound | src/buffer.rs:164-184 | after a write the total is at most max(limit, non-chunk bytes) plus the new chunk |
| SpoolDeque.FlushKeepsASuffix | src/buffer.rs:144-155 | a flush cuts memory into ceil(n/k) slices and the spool becomes a suffix of old spool ++ slices that keeps the last slice |
| LogLedger.InitialInv | src/buffer.rs:122-132 | the invariant holds when the daemon starts |
| LogRuns.StepKeepsInv | src/orchestrator.rs:88-226 | every atomic step of every task keeps the invariant: no rename overwrites a chunk, chunks stay whole, the flag is sound, memory is bounded, the chunk being published is untouched unless evicted |
| LogRuns.StepConserves | src/orchestrator.rs:88-226 | every atomic step accounts for each entry it moves, and for each hand-off |
| LogRuns.RunKeeps | src/orchestrator.rs:88-226 | both hold along every interleaving |
| LogRuns.LogLedgerTheorem | src/orchestrator.rs:121-222 | in every run, with no further hypothesis: every entry is settled after hand-off, held, evicted, or in a loss list (abandoned, cancelled, exit, failed flush, clobbered), exactly as often as it was accepted or left as a surplus copy, and every hand-off is settled, resent or in progress |
| LogRuns.NothingVanishes | src/orchestrator.rs:121-222 | in every run of the machine every entry is accounted for at least as often as accepted |
| LogRuns.OnlyCancellationLoses | src/orchestrator.rs:147-170 | with memory_max_entries at most 200, an un-evicted entry is lost only by cancelling a tick, by the process ending, or by one of the two races with deletion, which an undisturbed run does not have |
| LogRuns.AbandonsIffLargeMemory | src/orchestrator.rs:157-170 | no run abandons a batch if and only if memory_max_entries is at most 200 |
| LogRuns.UndisturbedIsExact | src/orchestrator.rs:184-221 | if no eviction hits the chunk being published or misses its own, and no exit cuts a tail requeue short, no chunk is deleted in another's place, no entry is duplicated and no flush fails |
| LogHolder.PushesKeepOrder | src/buffer.rs:134-155 | pushing entries one after the other: the slices written, in order, followed by the new memory are the old memory followed by the entries, and nothing is written while they fit |
| LogHolder.FlushedInOrder | src/buffer.rs:144-155 | a flush writes memory in order, in slices of exactly the configured size and a last one of the rest |
| LogHolder.HolderReachesGoal | src/orchestrator.rs:88-131 | whatever single steps an undisturbed lock holder takes, when it is done memory and directory are what pushing its entries one after the other gives |
| LogEnds.IngestKeepsEntry | src/orchestrator.rs:96-104 | an arriving entry ends up last in memory; if memory was full, all of it has been flushed before, and otherwise nothing is written |
| LogEnds.IngestHappens | src/orchestrator.rs:96-104 | whenever the lock is free there are steps that take the entry in |
| LogEnds.ShutdownFlushesAll | src/orchestrator.rs:123-132 | the final flush, by whatever steps, ends with empty memory, exactly what one flush of that memory writes in the directory, and the daemon stopped |
| LogEnds.ShutdownHappens | src/orchestrator.rs:123-132 | and there are steps that carry it through, whatever is in memory |
| LogEnds.ShutdownLosesNothing | src/orchestrator.rs:123-132 | over runs from the final flush on without a late arrival: every entry that was in memory or on disk is in the slices being written, on disk, evicted, or lost to a failed flush, exactly as often; once the lock is free an exit loses nothing |
| LogEnds.CancelLosesExactly | src/orchestrator.rs:121-135 | cancelling a tick loses exactly what was drained and not handed off, or the whole of a failed batch, and changes nothing else |
| LogEnds.CancelWhereverItWaits | src/orchestrator.rs:121-135 | the tick can be cancelled exactly where it waits for the lock or for a hand-off |
| LogEnds.CancelledForGood | src/orchestrator.rs:121-135 | for every configuration, a run in which a drained entry is cancelled before any hand-off and is nowhere afterwards |
| LogEnds.RestartStartsAfresh | src/orchestrator.rs:88-226 | an exit is possible at any point; it leaves the next start the same directory and nothing else, and loses exactly what was only in memory |
| LogEnds.TornWriteIsAside | src/buffer.rs:173-184 | the process can end after any number of bytes of a chunk were written: that much of the temporary file is left, and the chunks and the numbering as they were |
| LogEnds.BookkeepingAside | src/buffer.rs:21-52 | sequence numbers and crash-dump state can be written at any time in the same directory; they are neither chunks nor counted in the numbering, and they do count for the size |
| LogEnds.StepCauses | src/orchestrator.rs:88-226 | each column of the ledger is billed only by its own kinds of steps; arrivals and hand-offs one at a time |
| LogEnds.RunAccepts | src/orchestrator.rs:93-108 | over every run the accepted entries are those that arrived, in order |
| LogCrash.ChunksAlwaysWhole | src/buffer.rs:157-191 | at every point where the process may stop, each chunk the buffer wrote decodes to the slice it was given, others are unchanged, and temporary files are not chunks |
| LogCrash.CorruptBranchSparesOwnChunks | src/orchestrator.rs:214-220 | the corrupt-chunk branch removes no chunk this buffer wrote, unless the chunk it picked was evicted since |
| LogRace.NameReuseLosesAnEntry | src/orchestrator.rs:184-221 | for every configuration, a run in which an accepted entry, never handed off, goes with a chunk deleted in another's place: pick, evict, failed read, number reuse, delete |
| LogRace.LostIffHit | src/buffer.rs:77-95 | the publisher comes to be on a chunk that is evicted, with its name free, by exactly one kind of step: the removal of the listed oldest chunk when that is the one it is on |
| LogRace.NextIsExactly | src/buffer.rs:54-75 | the next chunk gets number n if and only if no number as high is on disk and n - 1 is (or n is 1) |
| LogRace.SliceAtRiskIff | src/buffer.rs:160-184 | with the publisher on the evicted chunk n, whatever it is at, and a slice about to be numbered, some continuation that begins no further slice deletes a wrong chunk if and only if n - 1 is the largest number on disk and the publisher gets to its deletion without another slice: it is reading or sending, or has a tail to requeue that fits into memory behind the last slice |
| LogRace.ClobbersIffExposable | src/orchestrator.rs:184-221 | a wrong chunk can be deleted without the lock if and only if a state can be reached in which a chunk is about to get the number the publisher is still on |
| LogRace.NoReuseNoClobber | src/buffer.rs:54-75 | until the publisher picks another chunk, no run deletes a wrong one unless some chunk is given the evicted chunk's number |
| LogRace.SparedWhileHigherStays | src/buffer.rs:54-75 | in particular none does while a file with a number as high stays on disk |
| LogRace.EvictionMissesIff | src/buffer.rs:77-95 | the removal of the listed chunk can fail if and only if the publisher is reading, sending or about to delete that chunk |
| LogRace.FailedFlushLosesAll | src/buffer.rs:136-155 | for every configuration, a run in which that makes a push fail, and exactly the whole queue and the entry pushed are gone |
| PublishTick.PushAll | src/orchestrator.rs:161-164 | requeueing under the lock through the buffer's own methods gives what pushing the entries in order gives, and is a run of pushes and their flushes only, none of which fails |
| PublishTick.RequeueTail | src/orchestrator.rs:200-211 | a run of LockTail, pushes and flushes, Release: the tail is pushed last entry first and the chunk then deleted; if it fits, the new memory is the old one followed by the tail backward, position by position, and no file but the chunk changes; otherwise slices and memory together hold just that, in that order |
| PublishTick.PublishMemory | src/orchestrator.rs:157-170 | all batches of 200 out: nothing else changes; otherwise exactly the failed batch is pushed back in order, what follows it is gone, and what was handed off is a prefix that ends inside that batch; all as a run of sends, lock steps and pushes |
| PublishTick.SendChunk | src/orchestrator.rs:186-194 | a run of sends only; a prefix of the chunk is handed off, and what counts as published is the whole batches of 200 in it |
| PublishTick.PublishChunk | src/orchestrator.rs:184-221 | a missing or undecodable chunk is deleted with nothing sent; one that is sent whole is deleted; one of which no batch went out stays; otherwise its tail is requeued and it is deleted; a run of the chunk's own steps, ending at rest |
| PublishTick.Tick | src/orchestrator.rs:141-226 | an uninterrupted tick does nothing offline; connected, it publishes memory if there is any and leaves the directory to the requeueing alone, and otherwise reads the newest chunk, with the outcomes above; as a run it contains no step of another task, shutdown or restart, loses nothing to a failed flush and hands off exactly what the run does |
| PublishTick.TickLedger | src/orchestrator.rs:141-226 | over such a tick every entry held before is held, settled, evicted, abandoned or clobbered after, exactly as often, and every hand-off is settled or for an entry kept |
| StreamKey.ComputeKey | src/metrics/aggregator.rs:206-226 | the string-building loop computes the key |
| StreamKey.KeyLaws | src/metrics/aggregator.rs:206-226 | no labels: the name; a label that sorts last adds a bar, its key, "=" and its value at the end; neighbours with different keys can change places; which fixes the key of every list |
| StreamKey.PermutedLabelsSameKey | src/metrics/aggregator.rs:206-226 | with distinct label keys any permutation of the labels gives the same key |
| StreamKey.OrderIrrelevantIff | src/metrics/aggregator.rs:206-226 | for labels without separators, order is irrelevant if and only if no key has two values |
| StreamKey.SameKeyIff | src/metrics/aggregator.rs:206-226 | two streams with clean labels share a key if and only if the longer name is the shorter one followed by the first of its sorted labels and the rest of them are the other's labels |
| StreamKey.KeyDeterminesStream | src/metrics/aggregator.rs:206-226 | with clean labels and names that lack a bar or lack '=', equal keys mean equal name and equal label set |
| StreamKey.SeparatorsConfuse | src/metrics/aggregator.rs:206-226 | a name that ends in a bar and "k=v" is confused with the shorter name that has the label k=v, if that label sorts first |
| Aggregation.SummaryExtends | src/metrics/aggregator.rs:51-61 | an update keeps sum, count, minimum and maximum those of the observations |
| Aggregation.SummaryBounds | src/metrics/aggregator.rs:37-61 | count * min <= sum <= count * max |
| Aggregation.RunRefines | src/metrics/aggregator.rs:103-172 | over whole runs the states summarise the open windows, each windowed reading reports exactly one closed window, and at most 10000 streams are open |
| Aggregation.WindowsPartition | src/metrics/aggregator.rs:106-169 | every accepted sample of a stream is in exactly one closed window or the open one, in order |
| Aggregation.StateOfWindow | src/metrics/aggregator.rs:37-61 | after any run each open stream has the first sample's name, labels and start, the last one's uptime, and the sum, number, least and greatest value of its window; at most 10000 are open |
| Aggregation.WindowedSampleCounts | src/metrics/aggregator.rs:129-139 | a windowed sample emits nothing, is counted in its own stream if that is open or fewer than 10000 are, and otherwise changes nothing |
| Aggregation.SumOfParts | src/metrics/aggregator.rs:51-61 | the sum of a window is the sum of its parts, down to the values |
| Aggregation.PublishedAtOnce | src/metrics/aggregator.rs:110-128 | over whole runs the readings without a count are, in order, exactly one for each sample of a counter, of a raw gauge, or of any kind if there is no window, and one for each uptime, with that sample's own name, labels, value and uptime, code 0, and no minimum or maximum |
| Aggregation.WindowsHoldNoRawSample | src/metrics/aggregator.rs:110-139 | no counter or raw sample is ever in a window, open or closed |
| Aggregation.GaplessNumbering | src/metrics/aggregator.rs:106-199 | the readings emitted for a key carry base+1, base+2, ... over the raw path, flushes and the uptime path together |
| Aggregation.Aggregator.Ingest | src/metrics/aggregator.rs:103-172 | samples are taken in order, exactly elapsed windows are flushed, and no open window is as old as the duration |
| Aggregation.Aggregator.NextSeq | src/metrics/aggregator.rs:195-199 | the counter of one key goes up by one and the new value is returned |
| Metrics.MetricsTask.OnTick | src/metrics/mod.rs:138-205 | one tick: every sample is taken in order, exactly elapsed windows are flushed, the uptime is reported last, readings are appended and capped, the client is tried exactly when something is queued and the link is up and gets a prefix of the queue, numbers are saved at most once a minute |
| Metrics.MetricsTask.OnShutdown | src/metrics/mod.rs:210-215 | unsaved numbers are saved on clean shutdown |
| Metrics.PendingIsNewest | src/metrics/mod.rs:173-204 | after any ticks and clean restarts the queue is exactly the newest readings, at most 1000, since the last completed publish |
| Metrics.PendingNumbersConsecutive | src/metrics/mod.rs:153-180 | in the queue each stream's numbers are consecutive and end at its counter |
| Metrics.TaskLaws | src/metrics/mod.rs:130-217 | the queue law, and "dirty, or the saved map covers all completed publishes", hold along every history |
| Metrics.CleanRestartFreshness | src/metrics/mod.rs:189-215 | every newly assigned number exceeds every number of that stream sent by a completed publish, over any clean restarts |
| Metrics.SavesAreThrottled | src/metrics/mod.rs:193-201 | over every history, saves by the ticks of one life are at least 60000 ms apart and the first is at least that long after the start |
| Metrics.CompletedPublishSaves | src/metrics/mod.rs:189-202 | a publish that completes at least 60000 ms after the last save or start leaves every counter saved and nothing dirty; one that completes sooner leaves the file as it was and the numbers dirty |
| Metrics.FailedPublishReusesNumber | src/metrics/mod.rs:189-215 | a history in which a number handed off by a failed publish is assigned again |
| Metrics.NumbersReusedIff | src/metrics/mod.rs:189-215 | at any clean restart of any history no continuation from the loaded counters can assign a number handed off in that run again if and only if the numbers are dirty or no failed publish handed anything off since the last save or start; equivalently the loaded counters cover them |
| Metrics.NeverReusedIff | src/metrics/mod.rs:189-215 | over whole histories: after no clean restart can any number ever handed off be assigned again in some continuation if and only if every restart meets that guard |
| Metrics.RecursIff | src/metrics/aggregator.rs:106-199 | a number can be assigned again to its stream by some run of the aggregator if and only if it is beyond the stream's counter |
| Metrics.EveryReadingAccounted | src/metrics/mod.rs:153-204 | every reading ever emitted is in a completed publish, pending, dropped as one of the oldest at the cap, or lost with the queue at shutdown, exactly as often |
| Fnv.HashMod | src/sources/crashdump.rs:314-325 | masking the hash equals running every round modulo 2^63 |
| Fnv.KnownValues | src/sources/crashdump.rs:314-321 | the hash of no bytes and of "a" are those of 64-bit FNV-1a |
| Fnv.IdHashes | src/sources/crashdump.rs:314-325 | the id is the hash of the name followed by eight bytes that, least significant first, are the modification time, without the top bit |
| Fnv.RoundInjective | src/sources/crashdump.rs:316-321 | a round is injective in the state and in the byte |
| Fnv.OneByteSeparates | src/sources/crashdump.rs:310-325 | identities that differ in exactly one byte get different ids, all below 2^63 |
| Fnv.ComputeId | src/sources/crashdump.rs:314-325 | the in-place loop computes that id |
| CoreDump.MessagesShape | src/sources/crashdump.rs:202-216 | ordinals 0 to ceil(len/chunk)-1, only the last flagged, each message with the id, the build id and the slice at its ordinal; a size of zero counts as one |
| CoreDump.CappedIsFirstBytes | src/sources/crashdump.rs:277-283 | an oversized record is cut to its first max_bytes bytes, any other is left whole |
| CoreDump.ReassemblesExactly | src/sources/crashdump.rs:202-261 | any messages of attempts at one dump, in any order, with duplicates and none missing, rebuild exactly its content |
| CoreDump.RetriesReassemble | src/sources/crashdump.rs:183-188 | partial attempts and one complete one rebuild the content |
| CrashDump.CrashKeepsLegal | src/sources/crashdump.rs:175-181 | a crash at any point leaves a lawful trace |
| CrashDump.OnFileFullySent | src/sources/crashdump.rs:343-383 | at every point the persisted state lists only ids whose record was read and then sent completely, every message of what was read |
| CrashDump.NoRepublication | src/sources/crashdump.rs:145-149 | once an id is on file and not pruned, its record is not read for upload and nothing of it is published again, over any restarts and crashes |
| CrashDump.FilesGoSentIff | src/sources/crashdump.rs:141-189 | in every lawful trace that a set of records explains, a file is deleted only after that file was itself read, its first max_bytes bytes or all of it, and what was read completely sent and rebuilt from what was sent, if and only if nothing is ever deleted or records with one id are one file |
| CrashDump.SecondRecordGoesUnsent | src/sources/crashdump.rs:141-149 | for any two records that share an id without being one file, two steps of the scan that read and send the first and delete the second unsent |
| CrashDump.LivesExplainedByRecords | src/sources/crashdump.rs:63-108 | what any lives of the task leave is such a trace, for the records they listed |
| CrashDump.State.Insert | src/sources/crashdump.rs:361-365 | an id is recorded once |
| CrashDump.State.PruneOld | src/sources/crashdump.rs:367-370 | exactly the records older than 604800 seconds go |
| CrashDump.PublishCoreDump | src/sources/crashdump.rs:202-216 | the messages of exactly the content passed in go out in order, all of them on success, a proper prefix up to the refused one otherwise |
| CrashDump.RecordDelivery | src/sources/crashdump.rs:175-180 | the id is recorded with the time, and a save of the whole state attempted, before the record may be deleted |
| CrashDump.MaybeDelete | src/sources/crashdump.rs:263-269 | one attempt to delete exactly this path under this id if deleting is configured, else nothing; only after its id was fully sent |
| CrashDump.HandleEntry | src/sources/crashdump.rs:128-190 | for each kind of entry exactly what is read, sent, saved and removed, in which order, and what result that gives |
| CrashDump.HandledMeans | src/sources/crashdump.rs:117-190 | said of the trace itself: entries that are no records are not touched; a known record is deleted, or that tried, exactly if configured; an unknown one waits offline; connected, the first bytes of it are read and its pieces published in order up to a refusal, or to the end and then recorded with the time, saved or that tried, and deleted or that tried |
| CrashDump.RecordsAreCandidates | src/sources/crashdump.rs:117-132 | records are the regular files with a readable name that starts with one of the configured kinds |
| CrashDump.HandledExplained | src/sources/crashdump.rs:128-190 | so all of it concerns this entry's own path, id and capped bytes, a file goes only with its id among the delivered, and an entry that is not done is undelivered |
| CrashDump.ScanAndPublish | src/sources/crashdump.rs:110-199 | the entries of the readable directories are handled in order until one fails to be sent or all are done, each from what the one before left; Idle if and only if all are done; the law is kept, everything done is explained by a listed record, and after RetrySoon some listed record is undelivered |
| CrashDump.Run | src/sources/crashdump.rs:63-108 | from any lawful trace, a whole life of the task loads what is on file, prunes it, and makes its scans in order, each as far as it gets; it extends the trace lawfully, and everything but the start is explained by a record listed in one of its scans |
| CrashDump.Lives | src/sources/crashdump.rs:63-108 | the same for any number of lives, each cut short by a crash at any point |
| Utf8.RoundTrip | src/sources/mod.rs:24-44 | decoding an encoded string gives the string |
| Utf8.DecodeIff | src/sources/mod.rs:24-44 | bytes decode to a string if and only if they are its encoding |
| Utf8.EncodedShape | src/sources/mod.rs:24-44 | the length of an encoded character by range, and the bits of its value in each byte |
| Ansi.StripAnsiExact | src/sources/mod.rs:7-67 | for every string: the character-level result if no introducer acted on precedes a non-ASCII character, the empty string otherwise; no ESC, no longer, and the fast path agrees with the loop |
| Ansi.StripAnsiKeepsText | src/sources/mod.rs:7-67 | every string can be cut up into kept characters and sequences (ESC or "#033", then one character, or a bracket up to a letter, or what the end cuts off); and however it is cut up, the result is the kept characters, or nothing at all if a sequence goes on with a non-ASCII character |
| Ansi.StripAnsiRefines | src/sources/mod.rs:14-67 | with nothing non-ASCII directly after any introducer, the result is the character-level stripper's |
| Ansi.UncleanIsInvalid | src/sources/mod.rs:43-66 | otherwise the bytes are not valid UTF-8 |
| Ansi.IdempotentIff | src/sources/mod.rs:19-45 | a second pass changes the result if and only if nothing awkward emptied it and the characters kept from the input, read by an automaton, spell out an octal introducer |
| Ansi.StrippingTwiceDiffers | src/sources/mod.rs:19-45 | inputs for which one is left |
| Ansi.SkipAfterEsc | src/sources/mod.rs:48-67 | the index moves past exactly the rest of the sequence |
| Ansi.StripLoop | src/sources/mod.rs:24-42 | the byte loop computes the byte-level result |
| Ansi.Strip | src/sources/mod.rs:19-45 | fast path, loop and decoding together compute the function |
| Syslog.MessageStart | src/sources/syslog.rs:217-229 | the counting scan stops after the fourth space, or at 0 |
| Syslog.Parse | src/sources/syslog.rs:109-132 | the entry whose body and severity are overwritten is the specified one |
| SyslogRoundTrip.RoundTrip5424 | src/sources/syslog.rs:160-206 | printing and parsing an RFC 5424 line, with any space after the version and any number of byte order marks, recovers the message without its escape sequences, severity, timestamp, host, process and pid, and sets nothing else |
| SyslogRoundTrip.RoundTrip3164 | src/sources/syslog.rs:208-285 | printing and parsing an RFC 3164 line, one- or two-digit day, recovers the message without its escape sequences, severity, host, process and pid |
| SyslogRoundTrip.LegacyIsNot5424 | src/sources/syslog.rs:160-178 | the RFC 5424 parser rejects every such RFC 3164 line |
| SyslogRoundTrip.RoundTripDefault | src/sources/syslog.rs:287-332 | the same for rsyslog's default format, with the severity the message names |
| SyslogRoundTrip.PriorityRoundTrip | src/sources/syslog.rs:154-158 | a printed PRI gives the severity of its value modulo 8: 0 to 2 critical, 3 error, 4 warning, 5 and 6 info, 7 debug |
| SyslogRoundTrip.OddPriorityIsInfo | src/sources/syslog.rs:154-158 | a PRI that is no numeral below 256 counts as info |
| SyslogRoundTrip.Taken5424 | src/sources/syslog.rs:160-178 | conversely, every line the RFC 5424 parser takes has that form |
| SyslogRoundTrip.EmptyLegacyIsKept | src/sources/syslog.rs:260-270 | an RFC 3164 line without a message is kept whole as unrecognised |
| SyslogForms.LegacyTaken | src/sources/syslog.rs:208-275 | any other text after a PRI is read as RFC 3164, and kept whole as unrecognised if it has no body |
| SyslogForms.BodyMeans | src/sources/syslog.rs:217-269 | its body: what follows the first ": " of what follows the fourth space, or of all of it with fewer spaces, or all of that without a ": " |
| SyslogForms.FewWords | src/sources/syslog.rs:236-260 | its labels: the fourth word as host, the fifth as tag, as far as there are that many |
| SyslogForms.TagMeans | src/sources/syslog.rs:277-285 | of a tag all trailing colons go, then all closing brackets of the id; an empty name, or an id that is no number, leaves no label |
| SyslogForms.ParseI64Iff | src/sources/syslog.rs:193-195 | an id is read if and only if it is a numeral in the range of i64, padded or not, signed or not |
| SyslogForms.DefaultTaken | src/sources/syslog.rs:287-332 | a line of timestamp, host, tag and message, whose timestamp parses and whose message is not blank, is read as rsyslog's default |
| SyslogForms.OtherwiseKept | src/sources/syslog.rs:109-132 | any other line without a PRI is kept whole, with the source as its only label and the severity its text names |
| SyslogForms.UnclosedIsKept | src/sources/syslog.rs:164-165 | so is a line that starts with "<" and has no ">" |
| SyslogForms.TracingSeverity | src/sources/syslog.rs:137-152 | the severity of a body by its second word, if the first has a T and a colon |
| SyslogForms.NoTracingSeverity | src/sources/syslog.rs:137-152 | and none with fewer than two words |
| Thermal.DistinctIff | src/metrics/collector.rs:398-418 | the labels are pairwise distinct if and only if no single type equals t_i for a duplicated t and an index below its count |
| Thermal.IndexAssigned | src/metrics/collector.rs:405-415 | a duplicated type gets each index below its count exactly once |
| Thermal.LabelZones | src/metrics/collector.rs:398-419 | the two passes over the maps give those labels, with the temperatures unchanged: a type that occurs again gets "_" and the number of earlier zones of that type, any other stays as it is |

## Left out

- MQTT, TLS, the event loop and delivery past the client: a publish call hands off a prefix of its messages and then succeeds or fails.
- CBOR and JSON formats: any encoder with a decoder that undoes it stands for them; encoding never fails.
- File operation failures in the log spool: all of them succeed there, except removing a chunk that the publisher has just deleted. (In the crash-dump task, saving and removing may fail.)
- Failures of saving sequence numbers: saves and loads succeed.
- u64 overflow: counters are unbounded, and a chunk number that would not fit u64 is excluded where it is assigned.
- f64 rounding: values are reals.
- Aggregation.StreamState: a value in the aggregator's map that is replaced on update, not an object; the map owns it in the original too, so no aliasing is lost.
- Tokio timers, fairness and liveness: only which steps are possible is modelled, so nothing is said about when a message goes out.
- PublishTick.Tick: covers a tick that no other task interleaves with; interleaved ticks are runs of the machine, not of this method.
- LogRace.ClobbersIffExposable: speaks of deletions without the lock; those that end a tail requeue are covered by LogRace.NoReuseNoClobber and, slice by slice, by LogRace.SliceAtRiskIff.
- StreamKey.SameKeyIff: is for labels without separators inside, which the daemon does not enforce.
- SpoolDeque.FlushKeepsASuffix: needs chunk numbers below 10^10, the limit SpoolNames.NameOrderLimit shows to be exact.
- CrashDump.ScanAndPublish: directory listings and file contents are inputs of a scan; records that appear or vanish during one scan are not modelled.
- Two records with the same id, by a hash collision or the same name and time in two directories, count as one dump, as they do in the original; CrashDump.FilesGoSentIff says what that costs.
- chrono timestamp parsing: an arbitrary partial function.
- Reading /proc and /sys, the collector's formulas, the metrics socket, journald, syslog tailing and rotation, configuration loading, installation files: input and output, or one-line arithmetic.
