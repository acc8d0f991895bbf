# A verified model of the file-storage server

The server keeps files in memory as a bounded cache. Worker threads serve client
requests over one shared hash map of files; each file has its own reader-writer
lock; an LRU or FIFO replacement algorithm keeps the store under a byte limit and
a file-count limit. This project models that server in Dafny and proves what it
is meant to guarantee. `dafny verify dfyconfig.toml` checks everything.

How the files fit together:

- `Basics`, `Ints`: shared definitions; the `int` that `readn` returns.
- `Clock`, `StoreSpec`: the store as a value. `StoreSpec.Next` relates the state
  before a request, the event (request, clock readings, reply) and the state
  after it, branch by branch as the handlers do. Everything else refers to it.
- `Eviction`, `StoreRuns`, `QueueCache`: what `Next` guarantees over single steps
  and over all histories: exact eviction, accounting, limits, ledger, rights,
  append-only contents, and the equivalence of timestamp eviction with queues.
- `Meaning`: what each request means to clients, field by field, independently of
  the functions that `StoreSpec` is written with.
- `Shortfalls`: where the handlers fall short of what their checks are for, with the
  exact condition and a run for each.
- `FileStore`: the handlers as methods of a class over mutable fields, with the
  loops of the replacement code, proved against `Next`.
- `RwLock`: the per-file lock with its ordering mutex, at the grain of single
  mutex and condition-variable operations, for any number of threads.
- `Protocol`: the handlers interleaved: any number of threads, one `files_mtx`,
  one lock per file object, objects that are allocated and freed.
  `ProtocolInv` is the invariant; `ProtocolLocks`, `ProtocolFrame`,
  `ProtocolFiles`, `ProtocolLoops`, `ProtocolEvict` and `ProtocolSettle` show that
  the steps keep it; `ProtocolRuns`, `ProtocolSafety`, `ProtocolReclaim`,
  `ProtocolProgress`, `ProtocolBudget`, `ProtocolLoss`, `ProtocolAlone`,
  `ProtocolScan`, `ProtocolStop`, `ProtocolMeasure` and `ProtocolRest` draw the
  conclusions: linearizability (so every theorem of `StoreRuns` holds of the
  interleaved server's history), atomic snapshots, safe and complete reclamation,
  progress, bounded critical sections, termination, the exact condition for
  deadlock freedom, and what scans leave in the locks of survivors.
- `LinkedList`, `Chains`, `Buckets`, `Table`, `HashMap`, `HashSet`, `HashIter`:
  the heap structures. `Chains` is their contents as a value. `Table` is the part
  that the map and the set share in the C code by duplication. `FileTable` ties the
  map to the table of files that `Protocol` uses.
- `Wire`: the format in which lists of files travel, over `read` and `write` calls
  that an arbitrary script splits and interrupts.
- `Delivery`: store, protocol and wire together: what a client decodes is one state
  of the store.
- `Handoff`: main loop, request queue, workers and result pipes.
- `Together`: the hand-over and the interleaved handlers in one machine; worker `w`
  is thread `w`. `Stopped`: what a failed send does to all of it.

Where the code falls short of its evident intent, the code is modelled as it is
and the exact condition is proved:

- A failed send in `read_file` leaves the reader lock taken. Exactly such runs have
  a lost reader (`ProtocolLoss.LostIffFailed`); without one the server is free of
  deadlock (`ProtocolLoss.DeadlockFree`), and with one, once `files_mtx` is free
  and a thread rests, a single further request can stop the server for good
  (`ProtocolLoss.WedgesIffFailed`, `ProtocolLoss.WedgedForever`).
  `ProtocolAlone.FailedReadRun` is such a run. After the failure no client can be
  closed any more (`ProtocolStop.ClosesIffNotFailed`), the failure itself brings a
  close about, and that stops the main loop (`Stopped.FailureBringsClose`,
  `Stopped.MainLoopStops`).
- A count limit of zero is not kept; any other is (`StoreRuns.CountBoundIff`).
- A worker tests the queue for emptiness once, not in a loop. With two or more
  workers it can pop from the empty queue, and exactly this breaks the ownership
  of clients (`Handoff.OwnershipIff`, `Handoff.PopsAreSafeIff`). With the spurious
  wake-ups that a condition wait permits, one worker is enough
  (`Handoff.PopsAreAlwaysSafeIff`).
- `readn` returns a `size_t` as an `int` and its callers take 0 and -1 for
  failures, so a file whose size is 0 or -1 modulo 2^32 does not arrive
  (`Wire.RoundTrip`, `Wire.FourGigabytesAreLost`), and a write or append of that
  size is refused (`Shortfalls.WriteSucceedsIff`, `Shortfalls.AppendSucceedsIff`;
  in all runs writes succeed exactly with a byte limit below 2^32 - 1,
  `Shortfalls.WritesSucceedIff`).
- `readFile` on the client takes the 0 that `readn` returns for an empty file for a
  closed connection (`Wire.ReadRoundTrip`, `Delivery.ClientGetsFile`); in lists
  empty files do arrive.
- `open_file` stores files with an empty path, and such a file ends a received
  list early (`Wire.EmptyPathEndsList`).
- `list_pop_front` leaves the new head's `prev` dangling
  (`LinkedList.List.PopFront`); nothing follows it, since the hash chains never
  pop and the queue is only walked forwards.
- `hashtbl_remove` takes one modulo where insertion and lookup take two. For
  descriptors, which are not negative, it finds the same bucket
  (`HashSet.RemovalLooksHome`).
- A whole-file write of no bytes is answered as a closed connection, because
  `readn` of size 0 returns 0 (`Shortfalls.EmptyAndFourGigabyteWrites`,
  `Shortfalls.RefusedWriteRun`).
- `append_to_file` does not consult the client lock: any opener may append
  (`Shortfalls.ForeignChangeIff`, `Shortfalls.ForeignAppendRun`). The lock is
  honoured in all runs exactly when there is no room for a byte
  (`Shortfalls.LocksAreHonouredIff`).

## Model

| member | source | states |
|---|---|---|
| `Meaning.Opening` | src/server/open_file.c:100-145 | Opening a stored file is refused exactly when the lock is wanted and another client has it, and then changes nothing; otherwise the client is an opener, has the lock if it wanted it, and the file is used; a missing file is refused. |
| `Meaning.Creating` | src/server/open_file.c:38-96 | Creating is refused exactly when the path is taken; otherwise the new file is empty, opened by its creator and locked by it exactly on demand, and one oldest file makes room exactly at the limit. |
| `Meaning.Closing` | src/server/close_file.c:25-46 | Closing a stored file ends the client's opening and frees its lock, and nobody else's; contents, stamps and other files stay; a missing file is refused. |
| `Meaning.Disconnecting` | src/server/server.c:498-512 | Closing a connection does that to every stored file. |
| `Meaning.Writing` | src/server/write_file.c:34-135 | A whole-file write is refused with the code of the first thing that is wrong, in the order of the handler, and then changes nothing; otherwise the file is the data, and exactly enough is expelled, oldest first, sparing the file itself. |
| `Meaning.Appending` | src/server/append_to_file.c:31-127 | The same for an append, which comes at the end of the contents and asks for no lock. |
| `Meaning.Reading` | src/server/read_file.c:20-63 | A read is refused for a missing file and to those who did not open it; otherwise it sends the path, all bytes and their number, and uses the file. |
| `Meaning.ReadingMany` | src/server/read_n_files.c:24-77 | A read-many sends min(N, stored) distinct files, all of them for N not positive, each with all of its bytes, and changes nothing. |
| `Meaning.Removing` | src/server/remove_file.c:28-72 | A removal by an opener who holds the lock takes the file out and counts it out; others are refused; a missing file is no error. |
| `Meaning.CodesTellApart` | includes/server-api-protocol.h:17-41 | The reply codes are those of the protocol and all different. |
| `Meaning.CodesThatClose` | src/server/write_file.c:34-42 | The codes -1 and -2 come from bodies that `readn` misreports and from nothing else. |
| `Meaning.LockChangesHands` | src/server/close_file.c:41-45 | A run from the empty server in which a client locks a file and closes it and the next client gets the lock. |
| `Meaning.OldestAreExpelled` | src/server/replacement.c:104-118 | Over whole runs, in nanoseconds: no file that outlives an eviction was last used, or under FIFO created, before a file that it expels. |
| `StoreRuns.SpaceIsSafe` | src/server/write_file.c:91-129 | In every state of every sequence of requests the counted bytes equal the sum of the stored sizes, each size is its content length, and the byte limit holds. |
| `StoreRuns.CountIsSafe` | src/server/open_file.c:51-67 | With a count limit of at least one, the counted files equal the stored files and never exceed the limit. |
| `StoreRuns.CountBoundIff` | src/server/replacement.c:34-36 | The count limit holds in all runs if and only if it is at least one. |
| `StoreRuns.ZeroLimitIsBroken` | src/server/open_file.c:53-62 | With a count limit of zero, any creation in an empty store exceeds it: eviction finds nothing and the file is inserted anyway. |
| `StoreRuns.RunKeepsInv` | src/server/append_to_file.c:83-120 | Every lawful history ends in a state with exact accounting and well formed files. |
| `StoreRuns.LedgerBalances` | src/server/replacement.c:67-70 | Over any run, files created are stored, removed or expelled; bytes accepted are stored, removed or expelled; `no_LRU` counts the expulsions. |
| `StoreRuns.MaximaAreExact` | src/server/open_file.c:61-64 | The reported maxima of files and of bytes are the exact peaks over all states between requests, and never below the present. |
| `StoreRuns.DeparturesAreRightful` | src/server/remove_file.c:43-68 | A file leaves the store only as an eviction victim or by a removal that its lock holder, an opener, asked for. |
| `StoreRuns.ChangesAreRightful` | src/server/write_file.c:66-89 | A file that stays: contents only grow, and only by an append of an opener or the first write of the lock holder; a held lock changes only to free, by its holder's close or disconnect; openers change by the sender alone; the creation stamp never changes. When exactly a request gets past the lock is `Shortfalls.ForeignChangeIff`. |
| `Shortfalls.ForeignChangeIff` | src/server/append_to_file.c:72-96 | While a file is locked, a request of somebody other than the holder changes its contents if and only if it is an append by an opener of a body that `readn` reports and that fits; it then appends exactly its data. |
| `Shortfalls.ForeignDepartureIff` | src/server/replacement.c:42-65 | While a file is locked, a request of somebody else takes it out of the store if and only if it expels it. |
| `Shortfalls.ForeignAppendRun` | src/server/append_to_file.c:72-96 | A run from the empty server: one client creates and locks a file, another opens it and appends to it, and the contents change under the lock. |
| `Shortfalls.LocksAreHonouredIff` | src/server/append_to_file.c:72-96 | In all runs nobody but the holder changes a locked file, if and only if the byte limit is zero. |
| `Shortfalls.WriteSucceedsIff` | src/server/write_file.c:34-42 | A write by the holder to its empty file, within the byte limit, succeeds if and only if `readn` reports its size; otherwise it is answered as a closed or broken connection and changes nothing. |
| `Shortfalls.AppendSucceedsIff` | src/server/append_to_file.c:33-46 | An append by an opener that fits succeeds if and only if there is nothing to append or `readn` reports its size. |
| `Shortfalls.EmptyAndFourGigabyteWrites` | src/server/write_file.c:34-42 | Otherwise permitted writes of no bytes and of 2^32 bytes are answered as closed connections. |
| `Shortfalls.FourGigabyteAppend` | src/server/append_to_file.c:33-46 | So is an otherwise permitted append of 2^32 bytes. |
| `Shortfalls.RefusedWriteRun` | src/server/write_file.c:34-42 | For every body of a misreported size within the byte limit, a run from the empty server in which a permitted write of it is refused. |
| `Shortfalls.WritesSucceedIff` | src/util/util.c:110-128 | In all runs every permitted write of at least one byte succeeds, if and only if the byte limit is below 2^32 - 1. |
| `StoreRuns.DisconnectForgets` | src/server/server.c:484-514 | After a client is closed no stored file lists it as opener or holder, and every other opener is kept. |
| `StoreRuns.ContentsOnlyGrow` | src/server/append_to_file.c:94-96 | While a file stays stored, its earlier contents are a prefix of its later contents, over any run. |
| `StoreRuns.LockPassesThroughFree` | src/server/open_file.c:119-129 | Between two states in which different clients hold a file there is one in which it was free or absent. |
| `Eviction.EvictionIsExact` | src/server/replacement.c:42-65 | Victims leave in policy order, none twice, each was stored and expellable, and none is newer than any expellable survivor. What the scans leave in the survivors' locks is `ProtocolScan.SurvivorsAsBefore`. |
| `Eviction.OldestGoFirst` | src/server/replacement.c:50-57 | The same in nanoseconds: victims leave oldest first, and no expellable survivor's instant is before a victim's. |
| `Clock.ComparesInstants` | src/server/replacement.c:104-110 | Readings of a clock compare as the nanoseconds they stand for, and are equal only when they are the same. |
| `Eviction.EvictionsAccount` | src/server/replacement.c:68-69 | Evictions take away exactly the victims' bytes and one entry per victim. |
| `Eviction.VictimFacts` | src/server/replacement.c:46-65 | Each victim had not left before its turn and was the stored, expellable file of its path. |
| `Eviction.NeverRunsDry` | src/server/replacement.c:87-98 | While an accepted write or append has freed too little, an expellable file with bytes to give is still stored, and it is not the growing file. |
| `Eviction.ShieldedStays` | src/server/write_file.c:121-123 | The growing file is never among the victims. |
| `Eviction.GrowKeepsInv` | src/server/append_to_file.c:107-117 | An accepted growth keeps the accounting and the limit, and the grown file stays with its new contents. |
| `Eviction.CreateKeepsInv` | src/server/open_file.c:53-62 | A creation, with the eviction it may need, keeps the accounting. |
| `Eviction.NextKeepsInv` | src/server/server.c:500-513 | Every request keeps: size equals content length, path equals key, holder among openers, exact counters, byte limit. |
| `FileStore.Iterate` | src/util/hash.c:47-77 | One pass over the store visits each stored path exactly once, in some order; the walk over the buckets is `HashIter.Successor`. |
| `FileStore.Store.ExpellSingleFile` | src/server/replacement.c:27-76 | Takes out an expellable file of which none was used (LRU) or created (FIFO) at an earlier instant, and accounts for it, or changes nothing when the store is empty. |
| `FileStore.Store.ExpellMultipleFiles` | src/server/replacement.c:78-102 | Evicts rightful victims until enough is freed and not one more; it terminates although victims may be empty. |
| `FileStore.Store.CreateFile` | src/server/open_file.c:40-96 | The loop-based creation does what the sequential specification of a creation allows, and keeps the invariant. |
| `FileStore.Store.OpenFile` | src/server/open_file.c:37-164 | As specified for opening and creating, every refusal included; what that means is `Meaning.Opening` and `Meaning.Creating`. |
| `FileStore.Store.CloseFile` | src/server/close_file.c:27-50 | As specified for closing; what that means is `Meaning.Closing`. |
| `FileStore.Store.WriteFile` | src/server/write_file.c:34-155 | As specified for a whole-file write: bodies that `readn` misreports are refused first, then checks in order, contents, accounting, exact eviction. |
| `FileStore.Store.AppendToFile` | src/server/append_to_file.c:31-150 | As specified for an append: nothing to append succeeds at once, bodies that `readn` misreports are refused, then the checks. |
| `FileStore.Store.ReadFile` | src/server/read_file.c:22-74 | As specified for a read, reply and recency; what that means is `Meaning.Reading`. |
| `FileStore.Store.ReadNFiles` | src/server/read_n_files.c:24-55 | As specified for a read-many; what that means is `Meaning.ReadingMany`. |
| `FileStore.Store.RemoveFile` | src/server/remove_file.c:28-77 | As specified for a removal. |
| `FileStore.Store.CloseClient` | src/server/server.c:484-514 | As specified for a disconnect. |
| `QueueCache.TimestampsRefineQueue` | src/server/replacement.c:104-118 | As long as the clock advances, in nanoseconds, from request to request, eviction by timestamps pops exactly the old end of a queue: move-to-back for LRU, creation order for FIFO. |
| `QueueCache.StepSimulates` | src/server/replacement.c:42-65 | One request served by timestamps evicts what the queue pops, in that order, and leaves the store ordered by the queue it leaves. |
| `QueueCache.EvictionsPop` | src/server/replacement.c:50-57 | Victims by timestamp are a prefix of the queue's expellable files. |
| `QueueCache.PopCountIs` | src/server/replacement.c:87-98 | The number of files popped is the least that frees enough. |
| `QueueCache.StampsArePast` | src/server/open_file.c:195-206 | Every stamp in the store is no later than the last clock reading. |
| `RwLock.StepKeepsInv` | src/server/file_locks.c:3-49 | Every mutex, condition or counter step of any number of threads keeps the lock invariant. |
| `RwLock.WriterIsAlone` | src/server/file_locks.c:27-39 | In every run, a writer shares the lock with no reader and no other writer. |
| `RwLock.NoLostWakeUp` | src/server/file_locks.c:16-49 | At most one thread sleeps, and an unsignalled sleeper's wait condition is true: `signal` loses nothing. |
| `RwLock.SignalsAreUseful` | src/server/file_locks.c:16-49 | No signal is wasted: whoever is woken by one could go in at that moment. |
| `RwLock.WokenGoesIn` | src/server/file_locks.c:31-36 | Without spurious wake-ups a thread sleeps once at most: from when it is woken on there is nothing it has to wait for. |
| `RwLock.ReadersShare` | src/server/file_locks.c:3-14 | Beside any number of readers another one gets in without waiting. |
| `RwLock.NoOvertaking` | src/server/file_locks.c:4-12 | Whoever is inside while a thread waits past the ordering mutex was inside when its wait began. |
| `RwLock.WaitCountsDown` | src/server/file_locks.c:19-21 | During a wait the holders decrease by exactly the unlocks. |
| `RwLock.WaitIsBounded` | src/server/file_locks.c:31-36 | After as many unlocks as there were holders nothing blocks the waiter and it is not asleep unsignalled. |
| `RwLock.UncontendedLock` | src/server/open_file.c:193-193 | Locking an object nobody else can reach never waits. |
| `RwLock.WhoBlocks` | src/server/file_locks.c:4-5 | A thread held up at a mutex is held up by a thread inside a call. |
| `RwLock.WhoIsAwaited` | src/server/file_locks.c:31-32 | A sleeper waits for a counted thread, or for a reader that left without unlocking. |
| `RwLock.RankFalls` | src/server/file_locks.c:16-49 | Every step inside a lock or unlock call shortens what is left of the calls: a signal lengthens the sleeper's call by less than the signaller's shrinks. |
| `ProtocolRuns.StepKeepsGInv` | src/server/open_file.c:37-97 | Every step of every thread keeps the structural and the data invariant. |
| `ProtocolRuns.Linearizable` | src/server/write_file.c:49-133 | In the order of their releases of `files_mtx` the critical sections of any interleaving form a lawful sequential history, whose last state is the shared data whenever the mutex is free. |
| `ProtocolRuns.CapacityIsSafe` | src/server/append_to_file.c:107-127 | Limits and separately kept counters are right in all interleavings whenever `files_mtx` is free. |
| `ProtocolSafety.OneEffectPerRequest` | src/server/workers.c:51-94 | Each request takes effect exactly once, after it arrives and before it is answered. |
| `ProtocolSafety.AtomicSnapshot` | src/server/read_n_files.c:24-77 | However late it is sent, what a read or read-many sends has the path, bytes and size that the store had when the handler released `files_mtx`, in the right number, from live objects. |
| `ProtocolSafety.SendingShows` | src/server/read_file.c:35-68 | While a thread sends, the objects it sends from are alive and contain what its reply lists. |
| `ProtocolSafety.SendersAreReaders` | src/server/read_n_files.c:34-77 | While it sends, a thread holds what it sends as a reader. |
| `ProtocolSafety.FreedIsUnreachable` | src/server/remove_file.c:41-72 | When a file object is freed nobody else holds, awaits or approaches its lock, and afterwards neither the table, nor any thread, nor an iterator still under way leads to it. |
| `ProtocolSafety.FreedForever` | src/server/write_file.c:132-154 | No object is freed twice or comes back. |
| `ProtocolReclaim.NothingLeaks` | src/server/open_file.c:72-80 | Every live object is stored, or some thread is about to store or free it. |
| `ProtocolReclaim.AtRestOnlyStored` | src/server/append_to_file.c:126-144 | When every thread rests the objects in memory are exactly the stored files. |
| `ProtocolFrame.LooseIsMine` | src/server/write_file.c:132-154 | A file that a thread holds as a writer and that has left the table concerns no other thread. |
| `ProtocolFrame.QueuesAtTable` | src/server/replacement.c:42-48 | Threads queue only for files that are in the table. |
| `ProtocolLocks.OnlyOwnerAcquires` | src/server/read_n_files.c:24-38 | Only the holder of `files_mtx` is ever on its way into a file lock. |
| `ProtocolLocks.WriterExcludes` | src/server/file_locks.c:27-39 | A file held as a writer concerns nobody else, except the holder of `files_mtx` queueing for it. |
| `ProtocolLocks.WriteKeepsSnap` | src/server/read_file.c:45-50 | Nothing a lock holder writes falsifies what another thread is sending. |
| `ProtocolFiles.LookupKeeps` | src/server/open_file.c:38-51 | The lookup that starts every critical section keeps the invariant. |
| `ProtocolFiles.LockedKeeps` | src/server/write_file.c:63-133 | Checking and acting under a file's lock agrees with the sequential handlers. |
| `ProtocolFiles.AcceptedGrows` | src/server/append_to_file.c:72-90 | The handler accepts exactly the writes and appends that the sequential checks accept, and refuses every other one with the code of the first check that fails. |
| `ProtocolLoops.CollectKeeps` | src/server/read_n_files.c:34-59 | The collecting loop keeps the invariant; it ends with a snapshot of the right number of distinct files. |
| `ProtocolLoops.CollectedSnapshot` | src/server/read_n_files.c:34-55 | Files collected under reader locks are distinct stored files, shown as they are. |
| `ProtocolLoops.SweptOne` | src/server/server.c:501-510 | Visited files have forgotten the client, the others are untouched. |
| `ProtocolEvict.ScanCompares` | src/server/replacement.c:50-57 | Keeping the older of two locked files keeps a best that no passed expellable file precedes. |
| `ProtocolEvict.BestIsVictim` | src/server/replacement.c:62-65 | A finished scan holds the rightful victim. |
| `ProtocolEvict.ExpelJob` | src/server/replacement.c:65-70 | Unlinking the victim extends the eviction so far by one rightful member, for creations and growths. |
| `ProtocolEvict.SettleData` | src/server/write_file.c:117-129 | When the loop ends, the store is as the sequential handler leaves it. |
| `ProtocolSettle.ExpelKeeps` | src/server/replacement.c:62-75 | Expelling keeps the invariant, whichever way the handler goes on. |
| `ProtocolSettle.InsertKeeps` | src/server/open_file.c:57-70 | Entering a new file in the table keeps the invariant. |
| `ProtocolLoss.DeadlockFree` | src/server/replacement.c:42-59 | Unless the send of a `read_file` has failed, as long as a handler is unfinished some unfinished handler can step, without help from spurious wake-ups; all other sends may fail. |
| `ProtocolLoss.WedgesIffFailed` | src/server/read_file.c:57-65 | With `files_mtx` free and a thread at rest, the server can still be wedged for good, without any further failed send, if and only if the send of a `read_file` has failed before. |
| `ProtocolLoss.LostIffFailed` | src/server/read_file.c:57-68 | Some live object counts a reader that left without unlocking if and only if the send of a `read_file` has failed in the run. |
| `ProtocolLoss.LosersAreStored` | src/server/remove_file.c:41-68 | A file with a lost reader is in the table: it is never removed or expelled. |
| `ProtocolStop.NoCloseAfterFailure` | src/server/server.c:500-510 | Once the send of a `read_file` has failed, the closing of a client never takes effect any more. |
| `ProtocolStop.ClosingsStop` | src/server/server.c:500-510 | The history has no more disconnects after such a failure than before, in any continuation. |
| `ProtocolStop.CloserKeepsMutex` | src/server/server.c:498-514 | The first thread that takes `files_mtx` to close a client after the failure keeps it for ever, and the history ends there. |
| `ProtocolStop.ClosesIffNotFailed` | src/server/read_file.c:57-65 | A server at rest can still close a client, without further failed sends, if and only if no send of a `read_file` has failed. |
| `ProtocolMeasure.StepWorks` | src/server/file_locks.c:16-49 | Every step of every thread, but an arrival and a spurious wake-up, uses up some of a measure of the work that is left. |
| `ProtocolRest.QuietRunsAreBounded` | src/server/write_file.c:49-155 | Termination: with no arrivals and no spurious wake-ups no run is longer than the work left when it began, however it is scheduled. |
| `ProtocolRest.SettledIsAtRest` | src/server/file_locks.c:31-36 | Where a run cannot go on every thread rests and `files_mtx` is free, unless the send of a `read_file` has failed and the holder of `files_mtx` sleeps on its file. |
| `ProtocolRest.ComesToRest` | src/server/open_file.c:37-97 | From every reachable state in which no send of a `read_file` has failed the server can finish everything it has begun. |
| `ProtocolAlone.RequestIsServed` | src/server/open_file.c:37-97 | On a server at rest where no send of a `read_file` has failed, any thread can take any request that needs `files_mtx` through to its reply, alone, with a lawful effect; the others are `Together.AnswerIsServe`. |
| `ProtocolAlone.FailedReadRun` | src/server/read_file.c:57-65 | A concrete run: a client creates a file, reads it, and is gone when the contents are sent; the server is at rest with a lost reader and can be wedged. |
| `ProtocolScan.SurvivorsAsBefore` | src/server/replacement.c:42-59 | From taking to releasing `files_mtx`, through every hand-over-hand scan, a file stored at both ends has no writer at either, the evicting thread is out of its lock but for the end of its last unlock, and its reader count differs by exactly the unlocks of other threads' readers. |
| `ProtocolScan.ReadersOnlyLeave` | src/server/read_n_files.c:76-94 | While a creation, write or append holds `files_mtx`, the reader count of a file that stays stored changes by other threads' unlocks only. |
| `ProtocolProgress.SomebodyMoves` | src/server/write_file.c:49-133 | In any reachable state with an unfinished handler some unfinished handler can step, unless the holder of `files_mtx` sleeps on a file whose reader left without unlocking. |
| `ProtocolLoss.LostReaderWedges` | src/server/read_file.c:58-65 | Once a stored file has lost a reader, the next request that opens it wedges the server. |
| `ProtocolLoss.WedgedForever` | src/server/read_file.c:58-65 | A wedged server stays so in every continuation: no other thread ever gets `files_mtx`. |
| `ProtocolLoss.StuckIsWedged` | src/server/file_locks.c:31-32 | The exception to progress is a wedged server. |
| `ProtocolProgress.ScanNotDry` | src/server/replacement.c:59-65 | Under interleaving too, a finished scan has found a file to expel. |
| `ProtocolLoss.IdleIsOut` | src/server/read_n_files.c:76-94 | A thread at rest holds no lock: every lock taken was released once. |
| `ProtocolBudget.CriticalSectionsEnd` | src/server/replacement.c:78-98 | A thread that has made more than n(n+1) + 2n + 4 handler steps since it took `files_mtx` has released it, n being the files stored when it took it, even if every victim is empty. |
| `ProtocolBudget.CriticalSectionsAreBounded` | src/server/replacement.c:78-98 | While it holds `files_mtx` a thread makes at most n(n+1) + 2n + 4 handler steps. |
| `ProtocolBudget.StepSpends` | src/server/replacement.c:42-98 | Every handler step in a critical section uses up a bounded budget that depends on the stored files only. |
| `ProtocolBudget.ExpelSpends` | src/server/replacement.c:62-70 | However little a victim frees, the next round of the scan has one file less to look at. |
| `Delivery.StoredRoundTrip` | src/api/write_files_into_dir.c:19-74 | Stored files sent one after the other are decoded as they are if and only if no path is empty and no size is 0 or -1 modulo 2^32 without being 0. |
| `Delivery.ClientGetsSnapshot` | src/server/read_n_files.c:24-77 | Whenever the bytes of a read-many are taken from the file objects, they are all the bytes of the right number of distinct files of one single state of the store, and the client decodes exactly them if and only if no path is empty and no size is misreported by `readn`. |
| `Delivery.ClientGetsFile` | src/server/read_file.c:45-68 | Whenever the bytes of a read are taken from the file object, they are all the bytes of the requested file in one state of the store, and the client gets exactly them if and only if their number is not 0 and not misreported. |
| `Delivery.ClientGetsVictims` | src/server/write_file.c:137-149 | The files that a write or append expelled are distinct files of the one state of the store that the handler found; while they are sent their objects are alive and unchanged, and the client decodes exactly them if and only if no path is empty and no size is misreported. |
| `LinkedList.List.PushFront` | src/util/list.c:37-61 | Adds at the front and mends a stale `prev` of the old head. |
| `LinkedList.List.PushBack` | src/util/list.c:63-87 | Adds at the back, keeping whichever of the two list invariants held. |
| `LinkedList.List.PopFront` | src/util/list.c:89-112 | Refuses an empty list; otherwise returns the first value, and the list is fully linked afterwards exactly when it is empty. |
| `LinkedList.List.Unlink` | src/util/hash/hashmap.c:113-129 | Unlinking any node keeps the doubly linked chain and every other value in order. |
| `Buckets.NewBuckets` | src/util/hash/hashmap.c:73-77 | The new buckets are empty lists with nodes of their own. |
| `Table.Table.constructor` | src/util/hash/hashmap.c:54-80 | A new table is valid and empty. |
| `Table.Table.Put` | src/util/hash/hashmap.c:3-12 | Appends to the chain of the item's bucket and counts it. |
| `Table.Table.Expand` | src/util/hash/hashmap.c:26-52 | The same items, in visiting order, spread over twice as many buckets. |
| `Table.Table.Insert` | src/util/hash/hashmap.c:82-98 | One more item; the table is doubled first when it would get more than half full, so the load stays within half the buckets. |
| `Table.Table.CutAt` | src/util/hash/hashtable.c:116-128 | Takes one entry out of its chain and counts it out. |
| `HashMap.HashMap.Insert` | src/util/hash/hashmap.c:82-98 | For any hash function: one more binding for the key, after its earlier ones; all other keys as before, through expansions. |
| `HashMap.HashMap.GetByKey` | src/util/hash/hashmap.c:152-172 | The first binding of the key, or none. |
| `HashMap.HashMap.Contains` | src/util/hash/hashmap.c:174-187 | Whether the key has a binding. |
| `HashMap.HashMap.Remove` | src/util/hash/hashmap.c:100-138 | Takes the key's first binding away and returns it, or reports 1 and changes nothing; all other keys as before. |
| `HashMap.HashMap.VisitedOnce` | src/util/hash.c:47-77 | Iterating a map that binds no key twice meets each key at most once, and `nelem` entries in all. |
| `HashMap.HashMap.FlatShows` | src/util/hash.c:61-66 | In visiting order a key's bindings come as its bucket has them. |
| `HashMap.HashMap.FlatIs` | src/util/hash.c:47-77 | A hash map that stands for a map is visited as that map: its entries and no others. |
| `FileTable.WalkIsOrder` | src/util/hash.c:47-77 | With the hash map standing for the table of the interleaved server, its visiting order is one of the orders in which the server's loops may visit the stored objects. |
| `FileTable.Walk` | src/server/replacement.c:42-61 | One pass of a fresh iterator yields such an order. |
| `FileTable.Lookup` | src/server/open_file.c:38-45 | `hashmap_get_by_key` on the table finds the object of a stored path and nothing else. |
| `FileTable.Enter` | src/server/open_file.c:57-57 | Inserting an absent path keeps the hash map standing for the table. |
| `FileTable.TakeOut` | src/server/replacement.c:65-70 | So does removing a path, and the removed object is returned. |
| `Chains.SpreadBound` | src/util/hash/hashmap.c:38-46 | Rehashing keeps the order of every key's bindings. |
| `Chains.BoundFirst` | src/util/hash/hashmap.c:110-138 | Without its first entry a key has exactly its remaining bindings, and other keys all of theirs. |
| `Chains.BoundAtHome` | src/util/hash/hashmap.c:4-6 | A key is bound in its own bucket only. |
| `Chains.DistinctKeys` | src/util/hash.c:47-77 | If no key is bound twice no key is visited twice. |
| `HashSet.RemovalLooksHome` | src/util/hash/hashtable.c:111-113 | Removal takes one modulo where insertion takes two: it looks inside the array if and only if the descriptor's remainder is not negative, and then in the bucket insertion used. |
| `HashSet.HashSet.Insert` | src/util/hash/hashtable.c:73-89 | One more occurrence of the descriptor; load within half the buckets. |
| `HashSet.HashSet.Contains` | src/util/hash/hashtable.c:91-103 | Whether the descriptor is in the set. |
| `HashSet.HashSet.Remove` | src/util/hash/hashtable.c:105-136 | One occurrence less and 0, or 1 and nothing changed. |
| `HashIter.Successor` | src/util/hash.c:47-77 | From any place the next item of the visiting order, or the end. |
| `HashIter.Iter.Next` | src/util/hash.c:47-77 | 0 and the next item as long as there is one, then 1. |
| `HashIter.NextBucket` | src/util/hash.c:63-66 | Skips exactly the empty buckets. |
| `HashIter.Collect` | src/server/read_n_files.c:26-48 | The first min(N, stored) items of the iteration for positive N and all of them otherwise, none more often than it is stored. |
| `HashIter.VisitAll` | src/server/server.c:501-511 | A sweep meets every item exactly once. |
| `Wire.RoundTrip` | src/api/write_files_into_dir.c:19-74 | An encoded list followed by anything is read back exactly and nothing past its terminator is consumed, if and only if no path is empty and every non-empty file's size is one that `readn` can report; otherwise other files or none are read. |
| `Wire.EmptyPathEndsList` | src/api/write_files_into_dir.c:26-31 | A file with an empty path, which `open_file` stores, ends the list for the client, and the rest of that file is left to be read as the result code. |
| `Wire.FourGigabytesAreLost` | src/util/util.c:110-128 | A file of 2^32 bytes is received whole and then taken for a closed connection. |
| `Wire.ReplyRoundTrip` | src/api/write_files_into_dir.c:76-84 | After a list that arrives the result code is found right after the terminator. |
| `Wire.FileRoundTrip` | src/server/send_files_to_client.c:3-22 | The length of the path is read back; after it, one file with a path is read back exactly when its size can be reported, and otherwise not at all. |
| `Wire.NumberOfBytes` | src/server/send_files_to_client.c:13-13 | Fixed-width little-endian numbers are read back. |
| `Wire.EncodeInOrder` | src/server/send_files_to_client.c:29-40 | The stream is the files in list order, then the terminator. |
| `Wire.ReadN` | src/util/util.c:110-128 | However reads are split or interrupted: the next bytes in order; 0 only at the end of the stream or for sizes that are 0 as an `int`. |
| `Wire.WriteN` | src/util/util.c:130-148 | However writes are split or interrupted: 1 if and only if everything is sent, 0 if and only if a `write` returned 0, -1 if and only if one failed; a prefix is sent in any case, exactly the one that `Wire.Writes` computes. |
| `Wire.WritesAllIff` | src/server/send_files_to_client.c:3-43 | Several buffers in a row get out whole if and only if no `write` failed or returned 0, and the result is -1 if and only if one failed. |
| `Wire.SendSingleFile` | src/server/send_files_to_client.c:3-22 | Path (if asked for), size and contents are sent whole if and only if no `write` failed or returned 0; the result is -1 if and only if one failed; what is sent is determined in every case. |
| `Wire.SendListOfFiles` | src/server/send_files_to_client.c:24-43 | The whole list and its terminator are sent if and only if no `write` failed or returned 0; the result is -1 if and only if one failed; what is sent is determined in every case. |
| `Wire.ReceiveFiles` | src/api/write_files_into_dir.c:19-74 | The receive loop returns exactly what the stream encodes, or fails when it does not encode a list. |
| `Wire.ReceiveReply` | src/api/write_files_into_dir.c:10-84 | The list, then the result code, and nothing more is consumed. |
| `Wire.Exchange` | src/api/write_files_into_dir.c:10-84 | For any splitting of writes and reads the client gets the files and the code that were sent, if and only if every file of the list arrives. |
| `Wire.ReadRoundTrip` | src/api/read_file.c:40-67 | The answer to a read is read back, contents and final code, if and only if the size is neither 0 nor -1 modulo 2^32: an empty file fails. |
| `Wire.RefusalRoundTrip` | src/api/read_file.c:40-47 | A refusal is read as the code that it is. |
| `Wire.SendRead` | src/server/read_file.c:57-68 | Code, size, contents and final code are sent whole when no `write` failed or returned 0, and a failure is reported exactly when there is one. |
| `Wire.ReceiveRead` | src/api/read_file.c:40-67 | The client's reads agree with the format, however they are split. |
| `Wire.ExchangeRead` | src/api/read_file.c:40-67 | For any splitting the client gets the file and the code if and only if `readn` can report the size. |
| `Wire.AnySplit` | src/util/util.c:115-124 | The scripts of partial transfers cover every way of splitting one. |
| `Handoff.OwnershipIff` | src/server/workers.c:43-53 | A step keeps every connected client in exactly one of select set, queue, worker and pipe, and nobody else anywhere, if and only if it is not a pop from the empty queue. |
| `Handoff.PopsAreSafeIff` | src/server/workers.c:44-52 | Without spurious wake-ups the unguarded pop never finds the queue empty if and only if there is at most one worker. |
| `Handoff.PopsAreAlwaysSafeIff` | src/server/workers.c:44-52 | With the spurious wake-ups that `pthread_cond_wait` permits, it never does if and only if there is no worker at all. |
| `Handoff.OneIsOvertaken` | src/server/workers.c:43-53 | With two workers a signalled one can find the queue emptied by the other. |
| `Handoff.CarefulRunsAreSound` | src/server/server.c:202-317 | In runs without such a pop: one place per client, FIFO queue, and files know connected clients only. |
| `Handoff.StepMoves` | src/server/server.c:294-317 | How each step moves clients between places. |
| `Handoff.Reporting` | src/server/workers.c:100-115 | A report keeps the client if and only if it took the answer and the code is neither -1 nor -2; hanging up, a failed read and an unknown operation lose it. |
| `Handoff.Collecting` | src/server/server.c:254-284 | A collected result puts its client back into the select set, still connected, or takes it out of both and begins to close it; other clients are untouched. |
| `Handoff.ReadyIsQueued` | src/server/server.c:206-317 | A ready client leaves the pass of the main loop only into the queue, at its end. |
| `Handoff.NoRequestIsStranded` | src/server/workers.c:43-47 | In every run, as long as the queue is not empty some worker is not asleep. |
| `Handoff.OneRequestAtATime` | src/server/workers.c:55-59 | A client served by a worker is connected, not watched, not queued, and served by no other worker. |
| `Handoff.NewClientHasNoRights` | src/server/server.c:265-284 | A newly accepted descriptor, even one used before, opens and locks nothing. |
| `Handoff.StepKeepsRights` | src/server/server.c:484-514 | Openers and holders are clients that are connected, or the one being closed. |
| `Together.HandlersRefineServing` | src/server/workers.c:90-110 | Every step of the interleaved handlers is either invisible to the hand-over or, at the release of `files_mtx`, a step that the hand-over allows, with the effect it describes. |
| `Together.AnswerIsServe` | src/server/append_to_file.c:33-57 | A request answered without `files_mtx`, an append of nothing or a body that `readn` misreports, is a step that the hand-over allows and that leaves the store alone. |
| `Together.MoveKeepsInv` | src/server/server.c:202-317 | Every step of the whole server, main loop, workers, handlers and early answers interleaved, keeps all invariants, unless it pops from the empty queue. |
| `Together.StoredRightsAreConnected` | src/server/server.c:484-514 | In the interleaved server, whenever `files_mtx` is free, openers and lock holders of stored files are clients that are connected or just being closed. |
| `Together.OneHandlerPerClient` | src/server/workers.c:55-59 | Two workers with requests in their handlers serve different, connected clients that are neither watched nor queued. |
| `Together.ReleaseRecords` | src/server/workers.c:94-113 | At the release of `files_mtx` the worker has the code of the reply for its client, and no other service changes. |
| `Together.ServedCodeKeeps` | src/server/workers.c:103-113 | A request served under `files_mtx` is never answered with a code that closes its client. |
| `Together.ReportKeepsIff` | src/server/workers.c:96-113 | A worker reports to keep its client if and only if the handler's and its own answer were taken and the code is neither -1 nor -2. |
| `Together.AnsweredIsWatchedAgain` | src/server/server.c:254-260 | With its answer taken, refusals included, a client can be connected and listened to again. |
| `Together.FailedSendIsRemembered` | src/server/read_n_files.c:63-74 | A success that the client does not take is remembered for the report, whichever request it answers. |
| `Together.MainLoopWaits` | src/server/server.c:498-514 | The main loop goes on only when the closing of a client is through. |
| `Stopped.MainLoopStops` | src/server/server.c:264-284 | Once the send of a `read_file` has failed and the main thread has begun to close any client, it never gets through: no connection is accepted, no request queued and no result collected any more. |
| `Stopped.FailureBringsClose` | src/server/workers.c:90-110 | After such a failure a close is on its way at every moment: in a worker that will report an error, in a result pipe, or in the hands of the main thread. |

## Left out

- Sockets, pipes, `select`, `accept`, clocks: environment choices (`Choice`, `Action`, clock readings as parameters).
- `curr_state_mtx`: taken only by threads that hold `files_mtx`, so it is never contended and has no step of its own.
- The uninitialised `err` of `read_n_files` on an empty store is taken to be 0.
- Integer widths in the store: sizes and counters are unbounded; the 32-bit result of `readn` is modelled where lists of files are received and where handlers read a body, not where they read paths.
- Allocation failure, `exit` paths, logging, statistics files, configuration parsing.
- REFUSE_CONN and CLOSE_SERVER: `mode` is written without synchronisation; dispatch is modelled while the server accepts connections.
- The concrete string hash: the map is proved for every hash function.
- `list_pop_back`: never called.
- The client's command line, directory scanning, writing received files to disk, and the request-writing API wrappers.
- Protocol and RwLock are transition systems, not classes: interleaving at the grain of mutex operations is the point, and a Dafny method body runs alone. `FileStore` has the same handlers as methods over mutable fields.
- Handoff is a transition system for the same reason; the order in which one pass visits ready descriptors is left open, so every order is covered.
- Protocol.Allocate: taking the lock of a just created file is one step, since no other thread can reach it (`RwLock.UncontendedLock` shows it never waits).
- Protocol.SendStep: a send is one step; the snapshot theorem holds in every state from the release of `files_mtx` to that step, so the moment at which each byte leaves does not matter.
- Protocol.IsOrder: the protocol takes an iteration as an arbitrary order of the stored objects, each once; `FileTable.WalkIsOrder` shows that the iterator of the hash map yields one.
- HashMap.HashMap.Insert: absence of the key is not required; with a key inserted twice the first binding shadows the second, as in the code.
- HashSet.HashSet.Remove: requires a descriptor that is not negative or has remainder 0, because the array access is out of bounds otherwise.
- HashIter.Iter.Next: requires that the end was not reported yet; another call would look at bucket -1.
- Delivery.ClientGetsSnapshot, Delivery.ClientGetsVictims: begin after the first result code, which is sent ahead of a list.
- Wire.RoundTrip: lengths must fit the fields that carry them, paths shorter than 2^31 - 1 bytes and contents than 2^64; paths are free of NUL, being C strings.
- ProtocolSafety.FreedIsUnreachable: speaks of file objects, not of the path buffer that a created file shares with its handler; `open_file` still prints that buffer after releasing both locks (src/server/open_file.c:69-95), when another thread may have expelled the file and freed it. Logging is left out and this aliasing with it.
- FileStore.Iterate: takes an arbitrary order of the stored paths; `HashIter` has the walk over the buckets.
- Together: a worker's bookkeeping of its result code happens at the release of `files_mtx`, before the reply is sent; that a send failed is remembered until the worker reports.
- ProtocolAlone.RequestIsServed: is about requests that take `files_mtx`; appends of nothing and bodies that `readn` misreports are answered before it, in `Together`.
- Fairness of the scheduler: progress is stated as the possibility of a step together with the bound on all runs without arrivals (`ProtocolRest`); with arrivals, as the bounded wait of `RwLock.WaitIsBounded` and the bounded critical sections of `ProtocolBudget`.
