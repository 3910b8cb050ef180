# Storage node of a sharded key-value service, modelled in Dafny

This project models the core logic of one node of the `2022-highload-dht`
service (the `ok.dht.test.scheredin` server and its LSM storage engine,
`MemorySegmentDao`). Three parts are modelled:

- **The per-peer circuit breaker** (`CircuitBreaker`). It is a class with the
  fields `state`, `failureCount` and `lastFailureTime`. The names are inverted:
  `Open` means healthy, `Closed` means tripped, and `HalfOpen` is the probe
  state after the cool-down. The count is a Java `int`, so its wrap-around at
  2^31 - 1 is written out. The clock is the parameter `now`.
- **The storage engine's orchestration** (`MemorySegmentDao`, twice). The two
  near-identical copies in the repository are the classes
  `ScheredinDao.MemorySegmentDao` (field `state`) and
  `DrozdovDao.MemorySegmentDao` (field `globalState`). Each holds one
  swappable snapshot `State{memory, flushing, storage, closed}`. Its methods
  are written step by step like the Java ones. Each is proved to install the
  snapshot and return the outcome that a pure step function of `EngineState`
  prescribes. The lemmas of `EngineProperties` are about those step functions.
- **The request decision logic** (`MultiThreadedServer`, `SimpleService`).
  This covers id validation, node selection, method dispatch to statuses,
  translation of a peer's status code, and breaker bookkeeping around a
  forward. The local path shared by both servers is in `EntityHandler`. The
  key is the UTF-8 encoding of the id (`Utf8`). Its decoder proves that
  distinct ids never share a key.

Abstractions:

- The classes `State`, `Storage`, `Memory` and `MergeIterator` are not part of
  this model. They are described in `EngineState`:
  - the memtable is a map from key to entry, and an entry's value is bytes or a
    tombstone;
  - `flushing` is absent, or is the memtable being written out;
  - storage is a newest-first sequence of segments plus an "open" flag;
  - `Storage.get` returns the first segment, newest first, that holds the key,
    tombstones included;
  - `Storage.isCompacted` means exactly one segment, so an empty storage is
    not compacted: `compact()` on a fresh dao with no segments and an empty
    memtable writes one empty segment;
  - saving the flushing buffer and reloading yields it as the newest segment;
  - compaction and reloading yields one segment in which the newer entry wins
    for every key.
- The memtable's size accounting is not modelled. What `memory.put` and
  `memory.overflow()` answer is a parameter (`overflowed`, `overflowNow`).
- Whether disk I/O succeeds is also a parameter (`disk`, `saveOk`).
- The background executor runs each job to completion before the call returns.
- A range scan is modelled as the map from key to surviving entry that
  `MergeIterator` over the layers yields. For each key it takes the newest
  entry: memory over the flushing buffer over the segments, and the newer
  segment over the older one. `from` is
  inclusive and `to` exclusive.

Behaviour as written, which the model keeps and the lemmas exhibit:

- `getNodeIndex` returns the last index for every id
  (`Server.MultiThreadedServer.GetNodeIndex`).
- A breaker in `Closed` sends `SERVICE_UNAVAILABLE` and then serves or forwards
  the request anyway (`Server.MultiThreadedServer.HandleRequest`).
- Point `get` never consults the flushing buffer. So an upsert or delete whose
  triggered flush fails is lost to `get`. A failed flush also closes the
  storage, and this model reads a closed storage as its last contents, so
  under that assumption a deleted value comes back
  (`EngineProperties.DeleteUndoneByFailedFlush`). If a closed `Storage`
  throws instead, `get` fails rather than returning the old value. After a failed flush, the
  next overflowing upsert raises `TooManyFlushesInBgException`, `flush()`
  silently does nothing, and `close()` never saves the stranded buffer
  (`EngineProperties.FailedFlushStrands`).
- `flush()` runs a flush only when `memory.overflow()` says so, rather than
  whenever the memtable is non-empty. It reads the snapshot without the
  closed check.
- The proxied status translation is not one-to-one. 304 becomes 406, and an
  unlisted code such as 500 throws (`Http.StatusTranslation`).

## Model

| member | source | states |
|---|---|---|
| CircuitBreakers.CircuitBreaker.constructor | src/main/java/ok/dht/test/scheredin/CircuitBreaker.java:10-18 | a new breaker is `Open` with `failureCount = 0` and `lastFailureTime = 0`, and keeps its threshold and retry timeout |
| CircuitBreakers.CircuitBreaker.RecordFail | src/main/java/ok/dht/test/scheredin/CircuitBreaker.java:20-30 | the count goes up by one (modulo 2^32); the breaker trips and is stamped with `now` iff the new count exceeds the threshold, otherwise state and timestamp are unchanged |
| CircuitBreakers.CircuitBreaker.RecordSuccess | src/main/java/ok/dht/test/scheredin/CircuitBreaker.java:32-40 | from any state: count 0, state `Open`, timestamp unchanged |
| CircuitBreakers.CircuitBreaker.GetState | src/main/java/ok/dht/test/scheredin/CircuitBreaker.java:42-55 | `Open` is returned with nothing changed; `Closed` becomes `HalfOpen` iff `now - lastFailureTime` exceeds the retry timeout; `HalfOpen` stays; the count and timestamp never change |
| CircuitBreakers.Increment | src/main/java/ok/dht/test/scheredin/CircuitBreaker.java:23 | Java's `++` on an `int`: one more modulo 2^32, strictly more below `INT_MAX` |
| CircuitBreakers.FailuresTrip | src/main/java/ok/dht/test/scheredin/CircuitBreaker.java:20-26 | from a healthy breaker, n failures add n to the count; the breaker is tripped exactly when the count passes the threshold, stamped with the last failure's time |
| CircuitBreakers.TrippedFailuresStayClosed | src/main/java/ok/dht/test/scheredin/CircuitBreaker.java:23-26 | further failures keep a tripped breaker tripped and restamp it |
| CircuitBreakers.CoolDown | src/main/java/ok/dht/test/scheredin/CircuitBreaker.java:48-54 | a tripped breaker probes iff the timeout has passed, otherwise stays tripped; once probing it keeps reporting `HalfOpen` at any later time |
| CircuitBreakers.OpenIsStable | src/main/java/ok/dht/test/scheredin/CircuitBreaker.java:43-45 | `getState` on a healthy breaker changes nothing |
| CircuitBreakers.TrippedIsInvariant | src/main/java/ok/dht/test/scheredin/CircuitBreaker.java:20-55 | "not healthy implies count above threshold" is kept by every operation while the count does not wrap |
| CircuitBreakers.ProbeOutcome | src/main/java/ok/dht/test/scheredin/CircuitBreaker.java:23-26 | since the probe state keeps the count, one failed probe re-trips the breaker with a fresh timestamp, and one success resets it |
| CircuitBreakers.CountWrapStopsTripping | src/main/java/ok/dht/test/scheredin/CircuitBreaker.java:12 | after 2^31 failures without a success the count wraps to `INT_MIN`, and a failed probe then neither trips nor restamps the breaker |
| CircuitBreakers.Lifecycle | src/main/java/ok/dht/test/scheredin/CircuitBreaker.java:10-55 | a new breaker trips after `threshold + 1` failures, probes after the cool-down, and a success makes it healthy with count 0 |
| ScheredinDao.MemorySegmentDao.constructor | src/main/java/ok/dht/test/scheredin/dao/MemorySegmentDao.java:34-37 | the initial snapshot has an empty memtable, no flush in flight, the loaded storage, and is open |
| ScheredinDao.MemorySegmentDao.AccessState | src/main/java/ok/dht/test/scheredin/dao/MemorySegmentDao.java:204-210 | fails with the closed-dao error iff the snapshot is closed, otherwise returns the snapshot |
| ScheredinDao.MemorySegmentDao.Get | src/main/java/ok/dht/test/scheredin/dao/MemorySegmentDao.java:62-72 | fails iff closed; otherwise memory's entry if present, else storage's, with null and tombstones reported absent |
| ScheredinDao.MemorySegmentDao.GetRange | src/main/java/ok/dht/test/scheredin/dao/MemorySegmentDao.java:39-60 | fails iff closed; a null `from` becomes the empty key; the result is the tombstone-filtered merge of storage, flushing and memory over the range |
| ScheredinDao.MemorySegmentDao.Upsert | src/main/java/ok/dht/test/scheredin/dao/MemorySegmentDao.java:74-90 | new snapshot and outcome are those of the upsert step: rejected when closed, otherwise the entry goes into memory and a non-tolerant flush runs iff `put` reports overflow |
| ScheredinDao.MemorySegmentDao.FlushInBg | src/main/java/ok/dht/test/scheredin/dao/MemorySegmentDao.java:92-108 | new snapshot and outcome are those of the flush step: with a flush in flight, tolerated (completed, no change) or rejected; otherwise `prepareForFlush` is installed and the job runs |
| ScheredinDao.MemorySegmentDao.RunFlushJob | src/main/java/ok/dht/test/scheredin/dao/MemorySegmentDao.java:110-136 | on success `afterFlush` of the reloaded storage holding the flushed buffer as newest segment; on failure the storage is closed and the future fails |
| ScheredinDao.MemorySegmentDao.Flush | src/main/java/ok/dht/test/scheredin/dao/MemorySegmentDao.java:139-154 | runs and awaits a tolerant flush iff `memory.overflow()` holds |
| ScheredinDao.MemorySegmentDao.AwaitAndUnwrap | src/main/java/ok/dht/test/scheredin/dao/MemorySegmentDao.java:196-202 | a failed future or a failed submission is rethrown; a completed future returns normally |
| ScheredinDao.MemorySegmentDao.Compact | src/main/java/ok/dht/test/scheredin/dao/MemorySegmentDao.java:156-194 | no-op when memory is empty and storage is compacted (checked before and inside the job); otherwise `afterCompact` of the compacted storage, or the failure with the snapshot unchanged |
| ScheredinDao.MemorySegmentDao.Close | src/main/java/ok/dht/test/scheredin/dao/MemorySegmentDao.java:212-236 | returns at once when closed; otherwise closes the storage, installs `afterClosed`, and saves the memtable iff it is non-empty |
| DrozdovDao.MemorySegmentDao.constructor | src/main/java/ok/dht/test/shashulovskiy/dao/drozdov/MemorySegmentDao.java:32-35 | the same initial snapshot, in `globalState` |
| DrozdovDao.MemorySegmentDao.AccessState | src/main/java/ok/dht/test/shashulovskiy/dao/drozdov/MemorySegmentDao.java:201-207 | rejects every access once `globalState.closed` holds |
| DrozdovDao.MemorySegmentDao.Get | src/main/java/ok/dht/test/shashulovskiy/dao/drozdov/MemorySegmentDao.java:55-65 | memory, then storage, skipping flushing; null or tombstone is absent; fails iff closed |
| DrozdovDao.MemorySegmentDao.GetRange | src/main/java/ok/dht/test/shashulovskiy/dao/drozdov/MemorySegmentDao.java:37-53 | the tombstone-filtered merge of all layers from `from` (empty key when null) to `to` |
| DrozdovDao.MemorySegmentDao.Upsert | src/main/java/ok/dht/test/shashulovskiy/dao/drozdov/MemorySegmentDao.java:67-83 | writes into memory and triggers a non-tolerant flush only on overflow |
| DrozdovDao.MemorySegmentDao.FlushInBg | src/main/java/ok/dht/test/shashulovskiy/dao/drozdov/MemorySegmentDao.java:85-101 | already flushing: tolerant completes with no change, non-tolerant raises `TooManyFlushes`; otherwise installs `prepareForFlush` and runs the job |
| DrozdovDao.MemorySegmentDao.RunFlushJob | src/main/java/ok/dht/test/shashulovskiy/dao/drozdov/MemorySegmentDao.java:103-129 | after save (`StorageCompanion.save`) and reload, `afterFlush(loaded)`; on failure the storage is closed and the error rethrown |
| DrozdovDao.MemorySegmentDao.Flush | src/main/java/ok/dht/test/shashulovskiy/dao/drozdov/MemorySegmentDao.java:132-147 | acts only if `memory.overflow()`, always through the tolerant path |
| DrozdovDao.MemorySegmentDao.AwaitAndUnwrap | src/main/java/ok/dht/test/shashulovskiy/dao/drozdov/MemorySegmentDao.java:189-199 | a failed future is rethrown to the caller |
| DrozdovDao.MemorySegmentDao.Compact | src/main/java/ok/dht/test/shashulovskiy/dao/drozdov/MemorySegmentDao.java:149-187 | a no-op iff memory is empty and storage compacted; otherwise `afterCompact(loaded)` |
| DrozdovDao.MemorySegmentDao.Close | src/main/java/ok/dht/test/shashulovskiy/dao/drozdov/MemorySegmentDao.java:209-233 | idempotent; sets closed and persists memory only when it is non-empty |
| EngineProperties.StorageGetSaved | src/main/java/ok/dht/test/scheredin/dao/MemorySegmentDao.java:115-116 | a lookup in the storage reloaded after a save finds the saved entries first, then the older segments |
| EngineProperties.CollapseGet | src/main/java/ok/dht/test/scheredin/dao/MemorySegmentDao.java:171-181 | the single compacted segment answers every lookup as the segments did before |
| EngineProperties.StorageGetInKeys | src/main/java/ok/dht/test/scheredin/dao/MemorySegmentDao.java:68 | a storage lookup finds a key iff some segment holds it |
| EngineProperties.StorageGetKeyed | src/main/java/ok/dht/test/scheredin/dao/MemorySegmentDao.java:68 | over well-keyed segments a lookup returns an entry whose key is the one asked for |
| EngineProperties.PointGetIsLookupWhenNotFlushing | src/main/java/ok/dht/test/scheredin/dao/MemorySegmentDao.java:63-72 | with no flush in flight, `get(key)` agrees with the merge of all layers |
| EngineProperties.PointGetSkipsFlushing | src/main/java/ok/dht/test/scheredin/dao/MemorySegmentDao.java:66-69 | a key held only by the flushing buffer is seen by the merge but `get` falls through to storage |
| EngineProperties.RangeGetMatchesLookup | src/main/java/ok/dht/test/scheredin/dao/MemorySegmentDao.java:40-59 | a scan holds exactly the in-range keys whose newest entry is live, each with that entry, and never a tombstone |
| EngineProperties.EmptyKeyIsFirst | src/main/java/ok/dht/test/scheredin/dao/MemorySegmentDao.java:23 | no key precedes the empty `VERY_FIRST_KEY`, so a scan from null covers every key |
| EngineProperties.UpsertUpdatesLookup | src/main/java/ok/dht/test/scheredin/dao/MemorySegmentDao.java:75-90 | last write wins in the merged view: after an upsert on an open dao it holds the new entry under its key and nothing else changes, in every flush outcome |
| EngineProperties.UpsertUpdatesPointGet | src/main/java/ok/dht/test/scheredin/dao/MemorySegmentDao.java:63-90 | `get` sees the upsert likewise, unless the upsert started a flush that failed |
| EngineProperties.DeleteHidesKey | src/main/java/ok/dht/test/scheredin/dao/MemorySegmentDao.java:40-90 | a deleted key is in no range scan, and `get` reports it absent under the same proviso |
| EngineProperties.DeleteUndoneByFailedFlush | src/main/java/ok/dht/test/scheredin/dao/MemorySegmentDao.java:66-69 | a delete whose triggered flush fails succeeds for the caller, yet `get` returns the deleted value again |
| EngineProperties.FlushInBgMovesMemory | src/main/java/ok/dht/test/scheredin/dao/MemorySegmentDao.java:104-134 | a flush empties memory; on success the memtable is the newest segment and nothing is in flight, on failure it stays in flushing and the storage is closed; the merged view is unchanged |
| EngineProperties.FlushKeepsPointGet | src/main/java/ok/dht/test/scheredin/dao/MemorySegmentDao.java:140-154 | a successful `flush()` returns normally and changes no `get` result |
| EngineProperties.FlushInBgWhileFlushing | src/main/java/ok/dht/test/scheredin/dao/MemorySegmentDao.java:96-102 | with a flush in flight nothing changes; tolerant completes, non-tolerant raises `TooManyFlushes` |
| EngineProperties.FlushNeverTooMany | src/main/java/ok/dht/test/scheredin/dao/MemorySegmentDao.java:140-154 | `flush()` never raises `TooManyFlushes`, and without overflow does nothing |
| EngineProperties.UpsertFlushesOnlyOnOverflow | src/main/java/ok/dht/test/scheredin/dao/MemorySegmentDao.java:82-89 | an upsert runs a non-tolerant flush exactly on overflow, and raises `TooManyFlushes` iff it overflows during a flush |
| EngineProperties.CompactKeepsReads | src/main/java/ok/dht/test/scheredin/dao/MemorySegmentDao.java:157-194 | compaction changes neither `get` nor any scan, whatever its outcome |
| EngineProperties.CompactNoopExactly | src/main/java/ok/dht/test/scheredin/dao/MemorySegmentDao.java:160-169 | with nothing to compact it returns normally; a successful compaction of anything else leaves one segment |
| EngineProperties.CompactTwiceIsNoop | src/main/java/ok/dht/test/scheredin/dao/MemorySegmentDao.java:160-162 | right after a successful compaction with an empty memtable, compacting again is a no-op |
| EngineProperties.CompactEmptyStorage | src/main/java/ok/dht/test/scheredin/dao/MemorySegmentDao.java:157-194 | with no segments and an empty memtable there is something to compact; a successful compaction leaves one empty segment, after which nothing is left to compact |
| EngineProperties.ClosedRejects | src/main/java/ok/dht/test/scheredin/dao/MemorySegmentDao.java:204-210 | once closed, upsert, flushInBg and compact raise the closed error and install nothing; `flush()` does so only when it gets as far as starting a flush |
| EngineProperties.CloseSavesMemory | src/main/java/ok/dht/test/scheredin/dao/MemorySegmentDao.java:229-235 | close marks the snapshot closed, closes the storage, and saves the memtable iff non-empty; the flushing buffer is never saved |
| EngineProperties.CloseIdempotent | src/main/java/ok/dht/test/scheredin/dao/MemorySegmentDao.java:215-218 | closing a closed dao returns at once and changes nothing |
| EngineProperties.CollapseKeyed | src/main/java/ok/dht/test/scheredin/dao/MemorySegmentDao.java:171-179 | merging well-keyed segments gives a well-keyed segment |
| EngineProperties.StepsKeepWellKeyed | src/main/java/ok/dht/test/scheredin/dao/MemorySegmentDao.java:75-236 | every operation keeps each entry stored under its own key, so reads return entries for the key asked for |
| EngineProperties.HealthyWhileDiskOk | src/main/java/ok/dht/test/scheredin/dao/MemorySegmentDao.java:75-194 | while the disk cooperates, upsert, flush and compact succeed and never leave a flush in flight or the storage closed |
| EngineProperties.FailedFlushStrands | src/main/java/ok/dht/test/scheredin/dao/MemorySegmentDao.java:96-134 | after a failed flush the next overflowing upsert raises `TooManyFlushes`, `flush()` does nothing, and close saves nothing of the stranded buffer |
| EngineProperties.Scenario | src/main/java/ok/dht/test/scheredin/dao/MemorySegmentDao.java:40-90 | upsert a=1, b=2, delete a: the full scan is exactly {b: 2}, `get(a)` is absent, `get(b)` is 2 |
| Utf8.EncodeChar | src/main/java/ok/dht/test/scheredin/MultiThreadedServer.java:207 | each character takes one to four bytes, one exactly for ASCII, later bytes being continuation bytes |
| Utf8.DecodeEncode | src/main/java/ok/dht/test/scheredin/MultiThreadedServer.java:207 | decoding the key bytes gives back the id |
| Utf8.EncodeInjective | src/main/java/ok/dht/test/scheredin/SimpleService.java:69 | distinct ids have distinct keys |
| Utf8.EncodeAscii | src/main/java/ok/dht/test/scheredin/SimpleService.java:92 | an ASCII id becomes its character codes, byte by byte |
| Http.StatusTranslation | src/main/java/ok/dht/test/scheredin/MultiThreadedServer.java:176-198 | a code translates iff it is one of the twenty listed; the status keeps the code except 304, which becomes `NOT_ACCEPTABLE` |
| Http.StatusRoundTrip | src/main/java/ok/dht/test/scheredin/MultiThreadedServer.java:176-198 | every status the switch produces comes back from its own code; `SERVICE_UNAVAILABLE` is never produced |
| Http.IsBlank | src/main/java/ok/dht/test/scheredin/MultiThreadedServer.java:203 | true iff every character is Java whitespace |
| Http.IsIncorrectId | src/main/java/ok/dht/test/scheredin/MultiThreadedServer.java:202-204 | holds iff the id is null or empty or all whitespace |
| EntityHandler.LocalStatuses | src/main/java/ok/dht/test/scheredin/MultiThreadedServer.java:206-229 | GET answers `NOT_FOUND` iff the dao yields null or a tombstone, else `OK` with the value bytes, and changes nothing; PUT answers `CREATED`, DELETE `ACCEPTED`; other methods `METHOD_NOT_ALLOWED` with the dao untouched |
| EntityHandler.GetAfterPut | src/main/java/ok/dht/test/scheredin/SimpleService.java:62-99 | a PUT is read back by the next GET of that id and changes no GET of another id |
| EntityHandler.GetAfterDelete | src/main/java/ok/dht/test/scheredin/SimpleService.java:70-116 | a DELETE answers `ACCEPTED` and the next GET of the id answers `NOT_FOUND` |
| Server.MultiThreadedServer.constructor | src/main/java/ok/dht/test/scheredin/MultiThreadedServer.java:56-71 | every cluster URL gets a fresh `CircuitBreaker(20, 1000)` |
| Server.MultiThreadedServer.GetNodeIndex | src/main/java/ok/dht/test/scheredin/MultiThreadedServer.java:153-163 | null for an empty cluster, otherwise the last index for every id |
| Server.MultiThreadedServer.HandleLocal | src/main/java/ok/dht/test/scheredin/MultiThreadedServer.java:206-229 | the dao snapshot and the response are those of the local step for the request's method on the id's key |
| Server.MultiThreadedServer.HandleRequest | src/main/java/ok/dht/test/scheredin/MultiThreadedServer.java:115-151 | wrong path or bad id: one `BAD_REQUEST`, nothing touched; otherwise the last node's breaker is consulted, `Closed` adds `SERVICE_UNAVAILABLE` without stopping the request; a failed forward sends `BAD_GATEWAY` and records a failure stamped with the later clock reading `failedAt`; a relayed answer records a success only after a probe; an unlisted code escapes with no response |
| Service.SimpleService.HandleGet | src/main/java/ok/dht/test/scheredin/SimpleService.java:60-81 | `BAD_REQUEST` for a null or blank id without touching the dao; otherwise `NOT_FOUND` or `OK` with the stored bytes; fails only on a closed dao |
| Service.SimpleService.HandlePut | src/main/java/ok/dht/test/scheredin/SimpleService.java:83-99 | `BAD_REQUEST` for a bad id with the dao untouched; otherwise upserts `(key, body)` and answers `CREATED` |
| Service.SimpleService.HandleDelete | src/main/java/ok/dht/test/scheredin/SimpleService.java:101-117 | `BAD_REQUEST` for a bad id with the dao untouched; otherwise upserts a tombstone and answers `ACCEPTED` |

## Left out

- HTTP transport and proxy I/O are not modelled: the one.nio server, selectors, session shutdown, `HttpClient.send`, URI construction, `createConfigFromPort` and `handleDefault`. The exchange with a peer is the parameter `forward`. `sendResponse` is assumed not to fail.
- Concurrency is not modelled: read/write locks, `volatile`, `synchronized`, thread pools, the single-thread dao executor, futures and `awaitTermination`. Background jobs complete before the call that started them returns. So a flush is in flight only after one has failed, and interleavings of requests are not covered.
- The per-node `ThreadPoolExecutor`s and their bounded shared queue are not modelled, nor the `RejectedExecutionException` a full queue raises.
- `Hash.murmur3` and the `max` it feeds in `getNodeIndex` are left out, because they never influence the chosen index.
- `System.currentTimeMillis()` is the parameter `now`. In a request it is read twice: `now` when the breaker is consulted, and `failedAt` (no earlier) when a failed forward is recorded. Clock values are unbounded integers, so `long` overflow of `now - lastFailureTime` is not modelled.
- The memtable's byte-size accounting is not modelled. The answers of `memory.put` and `memory.overflow()` are parameters.
- `State`, `Storage`, `StorageUtils`/`StorageCompanion`, `Memory`, `MergeIterator`, `TombFilteringIterator` and `EntryKeyComparator` are not part of this model. Their described behaviour is at the top of this file. No segment byte format is modelled. The order in which a range iterator yields entries is not modelled either: the scan is a map.
- Disk I/O at dao construction (`Storage.load`) is not modelled; the loaded storage is a constructor argument.
- `Storage.close()` is assumed to succeed. Reads after the storage is closed are modelled as reads of its last contents.
- An ID containing an unpaired UTF-16 surrogate is out of scope. Dafny characters are Unicode scalar values, so the `?` substitution Java performs is not modelled. A null request body on PUT is also out of scope.
- `SimpleService.start`/`stop`, the service factory, `Main`, `DemoServer`, `Stack`/`StackImpl` and logging are bootstrap or glue and are left out.
