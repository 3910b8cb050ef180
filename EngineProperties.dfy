/**
 * Properties of the dao's step functions: what each read sees, how each
 * operation changes what the layers hold, and the invariants the operations keep.
 */
module EngineProperties {
  import opened Common
  import opened EngineState

  // ---------------------------------------------------------------------------
  // Storage.
  // ---------------------------------------------------------------------------

  /** A lookup in the newly saved segment shadows every older segment. */
  lemma StorageGetSaved(st: Storage, entries: Memtable, key: Key)
    ensures StorageGet(SavedAndLoaded(st, entries).segments, key)
         == if key in entries then Some(entries[key]) else StorageGet(st.segments, key)
  {
    var segs := SavedAndLoaded(st, entries).segments;
    assert segs[0] == entries && segs[1..] == st.segments;
  }

  /** Collapsing the segments into one changes no lookup: the newest entry of
      each key survives. */
  lemma {:induction false} CollapseGet(segments: seq<Memtable>, key: Key)
    ensures StorageGet([Collapse(segments)], key) == StorageGet(segments, key)
  {
    if segments != [] {
      CollapseGet(segments[1..], key);
    }
  }

  /** Every key a storage lookup finds is one of the segments' keys. */
  lemma {:induction false} StorageGetInKeys(segments: seq<Memtable>, key: Key)
    ensures StorageGet(segments, key).Some? <==> key in SegmentKeys(segments)
  {
    if segments != [] {
      StorageGetInKeys(segments[1..], key);
    }
  }

  /** A storage lookup returns an entry stored under the key looked up, when each segment is well keyed. */
  lemma {:induction false} StorageGetKeyed(segments: seq<Memtable>, key: Key)
    requires forall i, k :: 0 <= i < |segments| && k in segments[i] ==> segments[i][k].key == k
    ensures StorageGet(segments, key).Some? ==> StorageGet(segments, key).value.key == key
  {
    if segments != [] && key !in segments[0] {
      assert forall i, k :: 0 <= i < |segments| - 1 && k in segments[1..][i] ==> segments[1..][i][k].key == k by {
        forall i, k | 0 <= i < |segments| - 1 && k in segments[1..][i]
          ensures segments[1..][i][k].key == k
        {
          assert segments[1..][i] == segments[i + 1];
        }
      }
      StorageGetKeyed(segments[1..], key);
    }
  }

  // ---------------------------------------------------------------------------
  // Reads: the point lookup against the merged view.
  // ---------------------------------------------------------------------------

  /** Without a flush in flight, the point lookup agrees with the merge of all layers. */
  lemma PointGetIsLookupWhenNotFlushing(s: State, key: Key)
    requires !IsFlushing(s)
    ensures PointGet(s, key) == Lookup(s, key)
  {
  }

  /** With a flush in flight, a key held only by the flushing buffer is seen by
      the merge but skipped by the point lookup, which falls through to storage. */
  lemma PointGetSkipsFlushing(s: State, key: Key)
    requires s.flushing.Some? && key in s.flushing.value && key !in s.memory
    ensures Lookup(s, key) == Some(s.flushing.value[key])
    ensures PointGet(s, key) == StorageGet(s.storage.segments, key)
  {
  }

  /** A range scan holds exactly the keys in range whose newest entry is live,
      each with that entry; it never yields a tombstone. */
  lemma RangeGetMatchesLookup(s: State, from: Option<Key>, to: Option<Key>, key: Key)
    ensures key in RangeGet(s, from, to)
        <==> InRange(key, RangeStart(from), to) && Visible(Lookup(s, key)).Some?
    ensures key in RangeGet(s, from, to) ==>
              RangeGet(s, from, to)[key] == Lookup(s, key).value && !RangeGet(s, from, to)[key].IsTombstone()
  {
    if Lookup(s, key).Some? && key !in s.memory && !(s.flushing.Some? && key in s.flushing.value) {
      StorageGetInKeys(s.storage.segments, key);
    }
  }

  /** A null `from` scans from the empty key, which no key precedes. */
  lemma {:induction false} EmptyKeyIsFirst(key: Key)
    ensures !KeyLess(key, RangeStart(None))
    ensures InRange(key, RangeStart(None), None)
  {
  }

  // ---------------------------------------------------------------------------
  // Writes: last write wins in the merged view.
  // ---------------------------------------------------------------------------

  /** After an upsert on an open dao the merged view holds the new entry under
      its key and nothing else changes: in every branch, whether a flush is
      triggered, rejected, succeeds or fails. */
  lemma UpsertUpdatesLookup(s: State, entry: Entry, overflowed: bool, disk: Disk, key: Key)
    requires !s.closed
    ensures Lookup(UpsertStep(s, entry, overflowed, disk).state, key)
         == if key == entry.key then Some(entry) else Lookup(s, key)
  {
    var s1 := s.(memory := s.memory[entry.key := entry]);
    if overflowed && !IsFlushing(s1) && disk == DiskOk {
      StorageGetSaved(s1.storage, s1.memory, key);
    }
  }

  /** The point lookup sees the upsert too, unless the upsert triggered a flush
      that failed: then the written entry sits only in the flushing buffer. */
  lemma UpsertUpdatesPointGet(s: State, entry: Entry, overflowed: bool, disk: Disk, key: Key)
    requires !s.closed
    requires !(overflowed && !IsFlushing(s) && disk == DiskFails)
    ensures PointGet(UpsertStep(s, entry, overflowed, disk).state, key)
         == if key == entry.key then Some(entry) else PointGet(s, key)
  {
    var s1 := s.(memory := s.memory[entry.key := entry]);
    if overflowed && !IsFlushing(s1) {
      StorageGetSaved(s1.storage, s1.memory, key);
    }
  }

  /** A delete is seen as absent by `get` and by every range scan
      (the point lookup under the same proviso as UpsertUpdatesPointGet). */
  lemma DeleteHidesKey(s: State, key: Key, overflowed: bool, disk: Disk, from: Option<Key>, to: Option<Key>)
    requires !s.closed
    ensures key !in RangeGet(UpsertStep(s, Entry(key, Tombstone), overflowed, disk).state, from, to)
    ensures !(overflowed && !IsFlushing(s) && disk == DiskFails) ==>
              Visible(PointGet(UpsertStep(s, Entry(key, Tombstone), overflowed, disk).state, key)) == None
  {
    var t := UpsertStep(s, Entry(key, Tombstone), overflowed, disk).state;
    UpsertUpdatesLookup(s, Entry(key, Tombstone), overflowed, disk, key);
    RangeGetMatchesLookup(t, from, to, key);
    if !(overflowed && !IsFlushing(s) && disk == DiskFails) {
      UpsertUpdatesPointGet(s, Entry(key, Tombstone), overflowed, disk, key);
    }
  }

  /** The proviso is needed: a delete whose triggered flush fails leaves the
      tombstone in the flushing buffer, and `get` returns the deleted value
      from storage again. The failed flush has closed the storage; this holds
      with a closed storage read as its last contents. */
  lemma DeleteUndoneByFailedFlush(key: Key, stale: Bytes)
    ensures
      var s := NewState(Storage([map[key := Entry(key, Data(stale))]], true));
      var t := UpsertStep(s, Entry(key, Tombstone), true, DiskFails);
      t.result == Ok(()) && Visible(PointGet(t.state, key)) == Some(Entry(key, Data(stale)))
  {
    var s := NewState(Storage([map[key := Entry(key, Data(stale))]], true));
    assert StorageGet(s.storage.segments, key) == Some(Entry(key, Data(stale)));
  }

  // ---------------------------------------------------------------------------
  // Flush.
  // ---------------------------------------------------------------------------

  /** A flush started with none in flight: on success the memtable is written
      out as the newest segment and nothing is in flight afterwards; on failure
      the memtable stays in the flushing buffer and the storage is closed.
      Either way the merged view is unchanged. */
  lemma FlushInBgMovesMemory(s: State, tolerate: bool, disk: Disk, key: Key)
    requires !s.closed && !IsFlushing(s)
    ensures var t := FlushInBgStep(s, tolerate, disk).state;
      t.memory == map[] && !t.closed
      && (disk == DiskOk ==> t.flushing == None && t.storage.open && t.storage.segments == [s.memory] + s.storage.segments)
      && (disk == DiskFails ==> t.flushing == Some(s.memory) && !t.storage.open && t.storage.segments == s.storage.segments)
      && Lookup(t, key) == Lookup(s, key)
  {
    if disk == DiskOk {
      StorageGetSaved(s.storage, s.memory, key);
    }
  }

  /** A successful flush is invisible to `get`. */
  lemma FlushKeepsPointGet(s: State, overflowNow: bool, key: Key)
    requires !s.closed && !IsFlushing(s)
    ensures FlushStep(s, overflowNow, DiskOk).result == Ok(())
    ensures PointGet(FlushStep(s, overflowNow, DiskOk).state, key) == PointGet(s, key)
  {
    if overflowNow {
      StorageGetSaved(s.storage, s.memory, key);
    }
  }

  /** With a flush already in flight, `flushInBg` changes nothing: the tolerant
      call completes, the other raises TooManyFlushes. */
  lemma FlushInBgWhileFlushing(s: State, tolerate: bool, disk: Disk)
    requires !s.closed && IsFlushing(s)
    ensures FlushInBgStep(s, tolerate, disk).state == s
    ensures FlushInBgStep(s, tolerate, disk).result == if tolerate then Ok(Done) else Err(TooManyFlushes)
  {
  }

  /** `flush()` goes through the tolerant path, so it never raises TooManyFlushes;
      it does nothing at all unless the memtable reports overflow. */
  lemma FlushNeverTooMany(s: State, overflowNow: bool, disk: Disk)
    ensures FlushStep(s, overflowNow, disk).result != Err(TooManyFlushes)
    ensures !overflowNow ==> FlushStep(s, overflowNow, disk) == Step(s, Ok(()))
  {
  }

  /** An upsert runs a flush exactly when the memtable reports overflow, and that
      flush is the non-tolerant one. */
  lemma UpsertFlushesOnlyOnOverflow(s: State, entry: Entry, overflowed: bool, disk: Disk)
    requires !s.closed
    ensures var s1 := s.(memory := s.memory[entry.key := entry]);
      UpsertStep(s, entry, overflowed, disk).state
        == (if overflowed then FlushInBgStep(s1, false, disk).state else s1)
    ensures UpsertStep(s, entry, overflowed, disk).result == Err(TooManyFlushes)
        <==> overflowed && IsFlushing(s)
  {
  }

  // ---------------------------------------------------------------------------
  // Compaction.
  // ---------------------------------------------------------------------------

  /** Compaction changes what no read sees, in either outcome. */
  lemma CompactKeepsReads(s: State, disk: Disk, key: Key)
    ensures PointGet(CompactStep(s, disk).state, key) == PointGet(s, key)
    ensures Lookup(CompactStep(s, disk).state, key) == Lookup(s, key)
  {
    CollapseGet(s.storage.segments, key);
  }

  /** Compaction is a no-op exactly when the memtable is empty and the storage
      is compacted; otherwise a successful one leaves a single segment. */
  lemma CompactNoopExactly(s: State, disk: Disk)
    requires !s.closed
    ensures CompactStep(s, disk).state == s <==> (NothingToCompact(s) || disk == DiskFails
                                                  || s.storage == CompactedAndLoaded(s.storage))
    ensures NothingToCompact(s) ==> CompactStep(s, disk).result == Ok(())
    ensures !NothingToCompact(s) && disk == DiskOk ==> IsCompacted(CompactStep(s, disk).state.storage)
  {
  }

  /** A second compaction right after a successful one, with no write between,
      is a no-op whenever the memtable is empty. */
  lemma CompactTwiceIsNoop(s: State, disk1: Disk, disk2: Disk)
    requires !s.closed && s.memory == map[]
    requires CompactStep(s, disk1).result.Ok?
    ensures var t := CompactStep(s, disk1).state;
      CompactStep(t, disk2) == Step(t, Ok(()))
  {
  }

  /** An empty storage is not compacted, so compacting a fresh dao with nothing
      in it writes one empty segment; once that is done, compacting is a no-op. */
  lemma CompactEmptyStorage(disk: Disk)
    ensures var s := NewState(Storage([], true));
      !NothingToCompact(s)
      && (disk == DiskOk ==> CompactStep(s, disk).state.storage.segments == [map[]]
                              && NothingToCompact(CompactStep(s, disk).state))
  {
  }

  // ---------------------------------------------------------------------------
  // Close and the closed check.
  // ---------------------------------------------------------------------------

  /** Once closed, every operation that goes through `accessState` raises
      DaoClosed and installs nothing; `flush()` does so only when it gets as far
      as starting a flush. */
  lemma ClosedRejects(s: State, entry: Entry, flag: bool, disk: Disk)
    requires s.closed
    ensures UpsertStep(s, entry, flag, disk) == Step(s, Err(DaoClosed))
    ensures FlushInBgStep(s, flag, disk) == Step(s, Err(DaoClosed))
    ensures CompactStep(s, disk) == Step(s, Err(DaoClosed))
    ensures FlushStep(s, flag, disk) == Step(s, if flag then Err(DaoClosed) else Ok(()))
  {
  }

  /** `close()` marks the snapshot closed, closes the storage, and hands the
      memtable to `Storage.save` exactly when it is non-empty. The flushing
      buffer is never saved. */
  lemma CloseSavesMemory(s: State, saveOk: bool)
    requires !s.closed
    ensures var c := CloseStep(s, saveOk);
      c.state.closed && !c.state.storage.open
      && c.state.memory == s.memory && c.state.flushing == s.flushing
      && (s.memory == map[] ==> c.result == Ok(None))
      && (s.memory != map[] ==> c.result == if saveOk then Ok(Some(s.memory)) else Err(StorageFailure))
  {
  }

  /** `close()` is idempotent: closing again returns at once and changes nothing. */
  lemma CloseIdempotent(s: State, saveOk1: bool, saveOk2: bool)
    ensures var c := CloseStep(s, saveOk1).state;
      c.closed && CloseStep(c, saveOk2) == Step(c, Ok(None))
  {
  }

  // ---------------------------------------------------------------------------
  // Invariants.
  // ---------------------------------------------------------------------------

  predicate KeyedMemtable(m: Memtable) {
    forall k :: k in m ==> m[k].key == k
  }

  /** Every layer holds each entry under that entry's own key. */
  predicate WellKeyed(s: State) {
    KeyedMemtable(s.memory)
    && (s.flushing.Some? ==> KeyedMemtable(s.flushing.value))
    && forall i :: 0 <= i < |s.storage.segments| ==> KeyedMemtable(s.storage.segments[i])
  }

  lemma {:induction false} CollapseKeyed(segments: seq<Memtable>)
    requires forall i :: 0 <= i < |segments| ==> KeyedMemtable(segments[i])
    ensures KeyedMemtable(Collapse(segments))
  {
    if segments != [] {
      assert forall i :: 0 <= i < |segments[1..]| ==> KeyedMemtable(segments[1..][i]) by {
        forall i | 0 <= i < |segments[1..]| ensures KeyedMemtable(segments[1..][i]) {
          assert segments[1..][i] == segments[i + 1];
        }
      }
      CollapseKeyed(segments[1..]);
      assert KeyedMemtable(segments[0]);
    }
  }

  /** Every operation keeps the snapshot well keyed, and then both reads return
      an entry stored under the key asked for. */
  lemma StepsKeepWellKeyed(s: State, entry: Entry, flag: bool, disk: Disk, saveOk: bool, key: Key)
    requires WellKeyed(s)
    ensures WellKeyed(UpsertStep(s, entry, flag, disk).state)
    ensures WellKeyed(FlushInBgStep(s, flag, disk).state)
    ensures WellKeyed(FlushStep(s, flag, disk).state)
    ensures WellKeyed(CompactStep(s, disk).state)
    ensures WellKeyed(CloseStep(s, saveOk).state)
    ensures PointGet(s, key).Some? ==> PointGet(s, key).value.key == key
    ensures Lookup(s, key).Some? ==> Lookup(s, key).value.key == key
  {
    var s1 := s.(memory := s.memory[entry.key := entry]);
    assert WellKeyed(s1);
    var segs := s.storage.segments;
    assert forall i :: 0 <= i < |[s1.memory] + segs| ==> KeyedMemtable(([s1.memory] + segs)[i]);
    assert forall i :: 0 <= i < |[s.memory] + segs| ==> KeyedMemtable(([s.memory] + segs)[i]);
    CollapseKeyed(segs);
    assert forall i, k :: 0 <= i < |segs| && k in segs[i] ==> segs[i][k].key == k by {
      forall i, k | 0 <= i < |segs| && k in segs[i] ensures segs[i][k].key == k {
        assert KeyedMemtable(segs[i]);
      }
    }
    StorageGetKeyed(segs, key);
  }

  /** No flush in flight, storage open, dao open. */
  predicate Healthy(s: State) {
    !s.closed && !IsFlushing(s) && s.storage.open
  }

  /** While the disk cooperates, upsert, flush and compaction keep the dao
      healthy: a flush is never left in flight. */
  lemma HealthyWhileDiskOk(s: State, entry: Entry, flag: bool)
    requires Healthy(s)
    ensures Healthy(UpsertStep(s, entry, flag, DiskOk).state)
    ensures Healthy(FlushStep(s, flag, DiskOk).state)
    ensures Healthy(CompactStep(s, DiskOk).state)
    ensures UpsertStep(s, entry, flag, DiskOk).result == Ok(())
    ensures FlushStep(s, flag, DiskOk).result == Ok(())
    ensures CompactStep(s, DiskOk).result == Ok(())
  {
  }

  /** A failed flush leaves the dao stuck: the next overflowing upsert raises
      TooManyFlushes, `flush()` silently does nothing, and `close()` saves the
      memtable but never the stranded flushing buffer. */
  lemma FailedFlushStrands(s: State, entry: Entry, disk: Disk)
    requires Healthy(s)
    ensures var t := FlushInBgStep(s, false, DiskFails).state;
      UpsertStep(t, entry, true, disk).result == Err(TooManyFlushes)
      && FlushStep(t, true, disk) == Step(t, Ok(()))
      && CloseStep(t, true).result == Ok(None)
      && t.flushing == Some(s.memory)
  {
  }

  // ---------------------------------------------------------------------------
  // The end-to-end scenario: upsert a=1, b=2, delete a, on a fresh dao whose
  // memtable never overflows.
  // ---------------------------------------------------------------------------

  lemma Scenario(a: Key, b: Key, one: Bytes, two: Bytes, disk: Disk)
    requires a != b
    ensures
      var s0 := NewState(Storage([], true));
      var s1 := UpsertStep(s0, Entry(a, Data(one)), false, disk).state;
      var s2 := UpsertStep(s1, Entry(b, Data(two)), false, disk).state;
      var s3 := UpsertStep(s2, Entry(a, Tombstone), false, disk).state;
      RangeGet(s3, None, None) == map[b := Entry(b, Data(two))]
      && Visible(PointGet(s3, a)) == None
      && Visible(PointGet(s3, b)) == Some(Entry(b, Data(two)))
  {
    var s0 := NewState(Storage([], true));
    var s1 := UpsertStep(s0, Entry(a, Data(one)), false, disk).state;
    var s2 := UpsertStep(s1, Entry(b, Data(two)), false, disk).state;
    var s3 := UpsertStep(s2, Entry(a, Tombstone), false, disk).state;
    assert s3.memory == map[a := Entry(a, Tombstone), b := Entry(b, Data(two))];
    assert AllKeys(s3) == {a, b};
    EmptyKeyIsFirst(b);
  }
}
