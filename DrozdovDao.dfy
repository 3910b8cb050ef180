/**
 * `MemorySegmentDao` (the copy under shashulovskiy/dao/drozdov): one swappable snapshot in the field
 * `globalState`. Each method does what the Java method does, step by step, and is
 * proved to install the snapshot and return the outcome that the matching step
 * function of EngineState prescribes. The background executor runs each job
 * synchronously; the answers of the memtable's size accounting (`overflowed`,
 * `overflowNow`) and the fate of the disk I/O (`disk`, `saveOk`) are parameters.
 */
module DrozdovDao {
  import opened Common
  import opened EngineState

  class MemorySegmentDao {
    var globalState: State

    /** `new MemorySegmentDao(config)` over the storage `Storage.load` returned. */
    constructor (loaded: Storage)
      ensures globalState == NewState(loaded)
    {
      globalState := NewState(loaded);
    }

    /** `accessState`: the current snapshot, unless the dao is closed. */
    method AccessState() returns (r: Result<State>)
      ensures r.Err? <==> globalState.closed
      ensures r.Err? ==> r.error == DaoClosed
      ensures r.Ok? ==> r.value == globalState
    {
      var localState := globalState;
      if localState.closed {
        return Err(DaoClosed);
      }
      return Ok(localState);
    }

    /** `get(key)`: memory first, then storage; null and tombstones are absent. */
    method Get(key: Key) returns (r: Result<Option<Entry>>)
      ensures r.Err? <==> globalState.closed
      ensures r.Err? ==> r.error == DaoClosed
      ensures r.Ok? ==> r.value == Visible(PointGet(globalState, key))
      ensures r.Ok? && r.value.Some? ==> !r.value.value.IsTombstone()
    {
      var access := AccessState();
      if access.Err? {
        return Err(access.error);
      }
      var localState := access.value;
      var result: Option<Entry> := None;
      if key in localState.memory {
        result := Some(localState.memory[key]);
      }
      if result.None? {
        result := StorageGet(localState.storage.segments, key);
      }
      if result.None? || result.value.IsTombstone() {
        return Ok(None);
      }
      return Ok(result);
    }

    /** `get(from, to)`: a null `from` becomes the empty key; the scan merges
        storage, flushing and memory and drops tombstones. */
    method GetRange(from: Option<Key>, to: Option<Key>) returns (r: Result<map<Key, Entry>>)
      ensures r.Err? <==> globalState.closed
      ensures r.Err? ==> r.error == DaoClosed
      ensures r.Ok? ==> r.value == RangeGet(globalState, from, to)
    {
      var access := AccessState();
      if access.Err? {
        return Err(access.error);
      }
      return Ok(RangeGet(access.value, Some(if from.None? then [] else from.value), to));
    }

    /** `upsert(entry)`: the entry goes into the current memtable; a reported
        overflow starts a non-tolerant background flush whose future is dropped. */
    method Upsert(entry: Entry, overflowed: bool, disk: Disk) returns (r: Result<()>)
      modifies this
      ensures globalState == UpsertStep(old(globalState), entry, overflowed, disk).state
      ensures r == UpsertStep(old(globalState), entry, overflowed, disk).result
    {
      var access := AccessState();
      if access.Err? {
        return Err(access.error);
      }
      var localState := access.value;
      globalState := localState.(memory := localState.memory[entry.key := entry]);
      var runFlush := overflowed;
      if runFlush {
        var started := FlushInBg(false, disk);
        if started.Err? {
          return Err(started.error);
        }
      }
      return Ok(());
    }

    /** `flushInBg(tolerateFlushInProgress)`: checks and swaps the snapshot,
        then runs the flush job (save, load, install `afterFlush`; on failure
        close the storage and fail the future). */
    method FlushInBg(tolerateFlushInProgress: bool, disk: Disk) returns (r: Result<Future>)
      modifies this
      ensures globalState == FlushInBgStep(old(globalState), tolerateFlushInProgress, disk).state
      ensures r == FlushInBgStep(old(globalState), tolerateFlushInProgress, disk).result
    {
      var access := AccessState();
      if access.Err? {
        return Err(access.error);
      }
      var localState := access.value;
      if IsFlushing(localState) {
        if tolerateFlushInProgress {
          return Ok(Done);
        }
        return Err(TooManyFlushes);
      }
      localState := PrepareForFlush(localState);
      globalState := localState;
      r := RunFlushJob(disk);
    }

    /** The job `flushInBg` submits to the background executor. */
    method RunFlushJob(disk: Disk) returns (r: Result<Future>)
      requires !globalState.closed && globalState.flushing.Some?
      modifies this
      ensures r.Ok?
      ensures disk == DiskOk ==>
        globalState == AfterFlush(old(globalState), SavedAndLoaded(old(globalState).storage, old(globalState).flushing.value))
        && r.value == Done
      ensures disk == DiskFails ==>
        globalState == old(globalState).(storage := CloseStorage(old(globalState).storage)) && r.value == Failed(StorageFailure)
    {
      var access := AccessState();
      var localState := access.value;
      if disk == DiskFails {
        globalState := globalState.(storage := CloseStorage(globalState.storage));
        return Ok(Failed(StorageFailure));
      }
      var load := SavedAndLoaded(localState.storage, localState.flushing.value);
      globalState := AfterFlush(localState, load);
      return Ok(Done);
    }

    /** `flush()`: a tolerant flush, run and awaited only if the memtable reports overflow. */
    method Flush(overflowNow: bool, disk: Disk) returns (r: Result<()>)
      modifies this
      ensures globalState == FlushStep(old(globalState), overflowNow, disk).state
      ensures r == FlushStep(old(globalState), overflowNow, disk).result
    {
      var runFlush := overflowNow;
      if runFlush {
        var future := FlushInBg(true, disk);
        r := AwaitAndUnwrap(future);
      } else {
        r := Ok(());
      }
    }

    /** `awaitAndUnwrap`: a failed future is rethrown to the caller. */
    static method AwaitAndUnwrap(future: Result<Future>) returns (r: Result<()>)
      ensures future.Err? ==> r == Err(future.error)
      ensures future.Ok? && future.value.Done? ==> r == Ok(())
      ensures future.Ok? && future.value.Failed? ==> r == Err(future.value.cause)
    {
      if future.Err? {
        return Err(future.error);
      }
      if future.value.Failed? {
        return Err(future.value.cause);
      }
      return Ok(());
    }

    /** `compact()`: a no-op when the memtable is empty and storage is
        compacted, checked before and inside the job; otherwise the segments are
        merged into one and `afterCompact` installs the reloaded storage. */
    method Compact(disk: Disk) returns (r: Result<()>)
      modifies this
      ensures globalState == CompactStep(old(globalState), disk).state
      ensures r == CompactStep(old(globalState), disk).result
    {
      var access := AccessState();
      if access.Err? {
        return Err(access.error);
      }
      var preCompactState := access.value;
      if preCompactState.memory == map[] && IsCompacted(preCompactState.storage) {
        return Ok(());
      }
      // the job, run on the background executor and awaited
      var inJob := AccessState();
      var localState := inJob.value;
      if localState.memory == map[] && IsCompacted(localState.storage) {
        return Ok(());
      }
      if disk == DiskFails {
        return Err(StorageFailure);
      }
      var storage := CompactedAndLoaded(localState.storage);
      globalState := AfterCompact(localState, storage);
      return Ok(());
    }

    /** `close()`: returns at once if already closed; otherwise it closes the
        storage, installs `afterClosed`, and saves a non-empty memtable. */
    method Close(saveOk: bool) returns (r: Result<Option<Memtable>>)
      modifies this
      ensures globalState == CloseStep(old(globalState), saveOk).state
      ensures r == CloseStep(old(globalState), saveOk).result
    {
      var localState := globalState;
      if localState.closed {
        return Ok(None);
      }
      localState := globalState.(storage := CloseStorage(globalState.storage));
      globalState := AfterClosed(localState);
      if localState.memory == map[] {
        return Ok(None);
      }
      if !saveOk {
        return Err(StorageFailure);
      }
      return Ok(Some(localState.memory));
    }
  }
}
