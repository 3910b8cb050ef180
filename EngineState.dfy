/**
 * The storage engine behind `MemorySegmentDao`, described at the level of its
 * state snapshot `State{memory, flushing, storage, closed}`.
 *
 * The classes `State`, `Storage` and `Memory` are not part of this model as
 * code; they are described here abstractly:
 *  - the memtable is a map from key to entry, where an entry carries either
 *    bytes or a tombstone;
 *  - `flushing` is absent (the empty-memory sentinel) or the memtable a flush
 *    is writing out;
 *  - storage is a newest-first sequence of segments, each a map.
 * Every operation of the dao is given as a pure step function from the old
 * snapshot (plus the answers of collaborators that are not modelled: the
 * memtable's size accounting and the disk) to the new snapshot and the
 * operation's outcome. The two dao classes are proved against these.
 */
module EngineState {
  import opened Common

  type Key = Bytes

  /** An entry's value: bytes, or the tombstone written by a delete (`null` in Java). */
  datatype Value = Data(bytes: Bytes) | Tombstone

  datatype Entry = Entry(key: Key, value: Value) {
    predicate IsTombstone() { value.Tombstone? }
  }

  type Memtable = map<Key, Entry>

  /** The on-disk segments, newest first, and whether the storage's files are still open. */
  datatype Storage = Storage(segments: seq<Memtable>, open: bool)

  datatype State = State(memory: Memtable, flushing: Option<Memtable>, storage: Storage, closed: bool)

  /** The exceptions the dao raises: `IllegalStateException` on a closed dao,
      `TooManyFlushesInBgException`, and a failed save, load or compaction. */
  datatype DaoError = DaoClosed | TooManyFlushes | StorageFailure

  datatype Result<T> = Ok(value: T) | Err(error: DaoError)

  /** What a background job's future ends with. */
  datatype Future = Done | Failed(cause: DaoError)

  /** Whether the disk I/O of a background job (save/compact, then load) succeeds. */
  datatype Disk = DiskOk | DiskFails

  /** The snapshot installed by an operation, and what the operation returns or throws. */
  datatype Step<T> = Step(state: State, result: Result<T>)

  // ---------------------------------------------------------------------------
  // Snapshot transitions (`State.newState`, `prepareForFlush`, `afterFlush`,
  // `afterCompact`, `afterClosed`) and the storage collaborators.
  // ---------------------------------------------------------------------------

  function NewState(loaded: Storage): State {
    State(map[], None, loaded, false)
  }

  predicate IsFlushing(s: State) {
    s.flushing.Some?
  }

  /** `Storage.isCompacted`: the storage consists of a single segment. */
  predicate IsCompacted(st: Storage) {
    |st.segments| == 1
  }

  /** The memtable becomes the flushing buffer, and a fresh empty memtable takes its place. */
  function PrepareForFlush(s: State): State {
    s.(memory := map[], flushing := Some(s.memory))
  }

  function AfterFlush(s: State, loaded: Storage): State {
    s.(flushing := None, storage := loaded)
  }

  function AfterCompact(s: State, loaded: Storage): State {
    s.(storage := loaded)
  }

  function AfterClosed(s: State): State {
    s.(closed := true)
  }

  function CloseStorage(st: Storage): Storage {
    st.(open := false)
  }

  /** `Storage.save` of a memtable's values followed by `Storage.load`: the
      saved entries come back as the newest segment. */
  function SavedAndLoaded(st: Storage, entries: Memtable): Storage {
    Storage([entries] + st.segments, true)
  }

  /** All segments merged into one, the newer entry winning on a shared key. */
  function Collapse(segments: seq<Memtable>): Memtable {
    if segments == [] then map[] else Collapse(segments[1..]) + segments[0]
  }

  /** Compaction of every segment followed by `Storage.load`. */
  function CompactedAndLoaded(st: Storage): Storage {
    Storage([Collapse(st.segments)], true)
  }

  // ---------------------------------------------------------------------------
  // Reads.
  // ---------------------------------------------------------------------------

  /** `Storage.get`: the first segment, newest first, that holds the key (tombstones included). */
  function StorageGet(segments: seq<Memtable>, key: Key): Option<Entry> {
    if segments == [] then None
    else if key in segments[0] then Some(segments[0][key])
    else StorageGet(segments[1..], key)
  }

  /** The lookup `get(key)` performs: memory, then storage. The flushing buffer is not consulted. */
  function PointGet(s: State, key: Key): Option<Entry> {
    if key in s.memory then Some(s.memory[key]) else StorageGet(s.storage.segments, key)
  }

  /** A null or tombstone lookup result is reported to the caller as absent. */
  function Visible(r: Option<Entry>): Option<Entry> {
    if r.None? || r.value.IsTombstone() then None else r
  }

  /** The newest entry for a key over every layer, memory over the flushing
      buffer over the segments: what a merge of all layers yields for it. */
  function Lookup(s: State, key: Key): Option<Entry> {
    if key in s.memory then Some(s.memory[key])
    else if s.flushing.Some? && key in s.flushing.value then Some(s.flushing.value[key])
    else StorageGet(s.storage.segments, key)
  }

  function SegmentKeys(segments: seq<Memtable>): set<Key> {
    if segments == [] then {} else segments[0].Keys + SegmentKeys(segments[1..])
  }

  /** Every key held by some layer of the snapshot. */
  function AllKeys(s: State): set<Key> {
    s.memory.Keys
    + (if s.flushing.Some? then s.flushing.value.Keys else {})
    + SegmentKeys(s.storage.segments)
  }

  /** Lexicographic order on keys, bytes compared as unsigned values. */
  predicate KeyLess(a: Key, b: Key) {
    if |a| == 0 then |b| > 0
    else if |b| == 0 then false
    else if a[0] != b[0] then a[0] < b[0]
    else KeyLess(a[1..], b[1..])
  }

  /** `from` inclusive, `to` exclusive, an absent `to` meaning the end of the keyspace. */
  predicate InRange(key: Key, from: Key, to: Option<Key>) {
    !KeyLess(key, from) && (to.None? || KeyLess(key, to.value))
  }

  /** The empty key `VERY_FIRST_KEY` that replaces a null `from`. */
  function RangeStart(from: Option<Key>): Key {
    if from.Some? then from.value else []
  }

  /** `get(from, to)`: the tombstone-filtered merge of storage, flushing and
      memory over the range, as a map from key to the surviving entry. The
      order in which the iterator yields them is not modelled. */
  function RangeGet(s: State, from: Option<Key>, to: Option<Key>): map<Key, Entry> {
    map k | k in AllKeys(s) && InRange(k, RangeStart(from), to) && Visible(Lookup(s, k)).Some?
      :: Lookup(s, k).value
  }

  // ---------------------------------------------------------------------------
  // The dao's operations as steps on the snapshot. The background executor
  // runs each submitted job to completion before the call returns.
  // ---------------------------------------------------------------------------

  /** `flushInBg(tolerateFlushInProgress)`: what the job's future ends with is
      the result; exceptions thrown before the job is submitted are errors. */
  function FlushInBgStep(s: State, tolerate: bool, disk: Disk): Step<Future> {
    if s.closed then Step(s, Err(DaoClosed))
    else if IsFlushing(s) then
      (if tolerate then Step(s, Ok(Done)) else Step(s, Err(TooManyFlushes)))
    else
      var p := PrepareForFlush(s);
      match disk
      case DiskOk => Step(AfterFlush(p, SavedAndLoaded(p.storage, p.flushing.value)), Ok(Done))
      case DiskFails => Step(p.(storage := CloseStorage(p.storage)), Ok(Failed(StorageFailure)))
  }

  /** `upsert(entry)`; `overflowed` is what `memory.put` reports. The future of
      a triggered flush is dropped, so a failing flush job does not reach the caller. */
  function UpsertStep(s: State, entry: Entry, overflowed: bool, disk: Disk): Step<()> {
    if s.closed then Step(s, Err(DaoClosed))
    else
      var s1 := s.(memory := s.memory[entry.key := entry]);
      if !overflowed then Step(s1, Ok(()))
      else
        var f := FlushInBgStep(s1, false, disk);
        Step(f.state, if f.result.Err? then Err(f.result.error) else Ok(()))
  }

  /** `flush()`; `overflowNow` is what `memory.overflow()` answers. It reads the
      snapshot without the closed check, and awaits a tolerant flush. */
  function FlushStep(s: State, overflowNow: bool, disk: Disk): Step<()> {
    if !overflowNow then Step(s, Ok(()))
    else
      var f := FlushInBgStep(s, true, disk);
      Step(f.state,
        match f.result
        case Err(e) => Err(e)
        case Ok(Done) => Ok(())
        case Ok(Failed(e)) => Err(e))
  }

  predicate NothingToCompact(s: State) {
    s.memory == map[] && IsCompacted(s.storage)
  }

  /** `compact()`: the check before submitting and the one inside the job see
      the same snapshot here. A failing job leaves the snapshot as it was. */
  function CompactStep(s: State, disk: Disk): Step<()> {
    if s.closed then Step(s, Err(DaoClosed))
    else if NothingToCompact(s) then Step(s, Ok(()))
    else match disk
      case DiskOk => Step(AfterCompact(s, CompactedAndLoaded(s.storage)), Ok(()))
      case DiskFails => Step(s, Err(StorageFailure))
  }

  /** `close()`; the result is the memtable handed to `Storage.save`, if any.
      `saveOk` says whether that save succeeds. */
  function CloseStep(s: State, saveOk: bool): Step<Option<Memtable>> {
    if s.closed then Step(s, Ok(None))
    else
      var c := AfterClosed(s.(storage := CloseStorage(s.storage)));
      if s.memory == map[] then Step(c, Ok(None))
      else if saveOk then Step(c, Ok(Some(s.memory)))
      else Step(c, Err(StorageFailure))
  }
}
