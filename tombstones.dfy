/** Permanent deletion: one tombstone per seq marker, produced as a single
    batch without offset prediction, then replayed into the store at the
    consecutive offsets the batch landed at. */
module Tombstones {
  import opened RegistryTypes
  import opened InternalTopic
  import opened Replay

  /** The key to tombstone for one seq marker: the marker's kind of key, with
      the marker's seq and node and the subject being deleted. */
  function TombstoneKey(sub: Subject, m: SeqMarker): (k: Key)
    ensures k.Kind() == m.keyType
    ensures k.seqOffset == m.seqOffset && k.node == m.node
    ensures k.SubjectOf() == Some(sub)
    ensures k.SchemaKey? ==> k.version == m.version
  {
    match m.keyType
    case Schema => SchemaKey(m.seqOffset, m.node, sub, m.version)
    case DeleteSubject => DeleteSubjectKey(m.seqOffset, m.node, sub)
    case Config => ConfigKey(m.seqOffset, m.node, Some(sub))
  }

  /** The keys to tombstone, one per marker and in the markers' order. */
  function TombstoneKeys(sub: Subject, markers: seq<SeqMarker>): (keys: seq<Key>)
    ensures |keys| == |markers|
    ensures forall i :: 0 <= i < |markers| ==> keys[i] == TombstoneKey(sub, markers[i])
  {
    seq(|markers|, i requires 0 <= i < |markers| => TombstoneKey(sub, markers[i]))
  }

  /** The batch of tombstones: each key with no value. */
  function TombstoneBatch(keys: seq<Key>): (batch: seq<Entry>)
    ensures |batch| == |keys|
    ensures forall i :: 0 <= i < |keys| ==> batch[i] == Entry(keys[i], None)
  {
    seq(|keys|, i requires 0 <= i < |keys| => Entry(keys[i], None))
  }

  /** The first loop of delete_subject_permanent_inner: walk the markers,
      pushing each marker's tombstone key onto `keys` and its record onto the
      batch. */
  method BuildTombstones(sub: Subject, markers: seq<SeqMarker>) returns (keys: seq<Key>, batch: seq<Entry>)
    ensures keys == TombstoneKeys(sub, markers)
    ensures batch == TombstoneBatch(keys)
  {
    keys, batch := [], [];
    for i := 0 to |markers|
      invariant |keys| == |batch| == i
      invariant forall j :: 0 <= j < i ==> keys[j] == TombstoneKey(sub, markers[j])
      invariant forall j :: 0 <= j < i ==> batch[j] == Entry(keys[j], None)
    {
      var s := markers[i];
      var key: Key;
      match s.keyType {
        case Schema => key := SchemaKey(s.seqOffset, s.node, sub, s.version);
        case DeleteSubject => key := DeleteSubjectKey(s.seqOffset, s.node, sub);
        case Config => key := ConfigKey(s.seqOffset, s.node, Some(sub));
      }
      keys := keys + [key];
      batch := batch + [Entry(key, None)];
    }
  }

  /** The second loop of delete_subject_permanent_inner: fold the i-th key's
      tombstone at `offset + i` and advance the cursor to that offset. */
  function ReplayTombstones(s: State, offset: Offset, keys: seq<Key>): (t: State)
    ensures t.log == s.log
    ensures |t.store| == |s.store| + |keys| && t.store[..|s.store|] == s.store
    ensures forall i :: |s.store| <= i < |t.store| ==>
      t.store[i] == Applied(offset + (i - |s.store|), Entry(keys[i - |s.store|], None))
    ensures t.loaded == if keys == [] then s.loaded else Advance(s.loaded, offset + |keys| - 1)
    decreases |keys|
  {
    if keys == [] then s
    else
      var next := State(s.log, s.store + [Applied(offset, Entry(keys[0], None))], Advance(s.loaded, offset));
      ReplayTombstones(next, offset + 1, keys[1..])
  }

  /** One step of the replay: fold the first key's tombstone at `offset`,
      advance the cursor to it, and replay the rest from the next offset. */
  lemma ReplayStep(s: State, offset: Offset, keys: seq<Key>)
    requires keys != []
    ensures ReplayTombstones(s, offset, keys)
      == ReplayTombstones(State(s.log, s.store + [Applied(offset, Entry(keys[0], None))], Advance(s.loaded, offset)),
                          offset + 1, keys[1..])
  {
  }

  /** delete_subject_permanent_inner as written: read the markers (the store
      throws when the victim is missing), produce the tombstones once (an
      error code throws), then replay them from the reply's base offset. */
  function AsWrittenPermanentDelete(s: State, q: StoreQueries, sub: Subject, version: Option<SchemaVersion>,
                                    interleaved: seq<Entry>, produceError: ErrorCode): (r: (State, Result<seq<SchemaVersion>>))
    ensures q.writtenAt(s.store, sub, version).Failure? ==> r == (s, Failure(q.writtenAt(s.store, sub, version).error))
    ensures r.1.Success? ==> produceError == NoError && r.1.value == []
    ensures q.writtenAt(s.store, sub, version).Success? && produceError != NoError ==>
      r == (State(s.log + interleaved, s.store, s.loaded), Failure(KafkaException(produceError)))
    ensures q.writtenAt(s.store, sub, version).Success? && produceError == NoError ==>
      var keys := TombstoneKeys(sub, q.writtenAt(s.store, sub, version).value);
      var base := |s.log| + |interleaved|;
      && r.1 == Success([])
      && r.0.log == s.log + interleaved + TombstoneBatch(keys)
      && |r.0.store| == |s.store| + |keys|
      && r.0.store[..|s.store|] == s.store
      && r.0.store[|s.store|..] == TombstonesAt(base, keys)
      && r.0.loaded == Advance(s.loaded, base + |keys| - 1)
      && (s.loaded < |s.log| ==> r.0.loaded == base + |keys| - 1)
  {
    match q.writtenAt(s.store, sub, version)
    case Failure(e) => (s, Failure(e))
    case Success(markers) =>
      var keys := TombstoneKeys(sub, markers);
      var log := AfterProduce(s.log, TombstoneBatch(keys), interleaved, produceError);
      var res := ProduceReply(s.log, interleaved, produceError);
      if res.errorCode != NoError then (State(log, s.store, s.loaded), Failure(KafkaException(res.errorCode)))
      else
        ReplayEndsWithTombstones(State(log, s.store, s.loaded), res.baseOffset, keys);
        (ReplayTombstones(State(log, s.store, s.loaded), res.baseOffset, keys), Success([]))
  }

  /** Replaying tombstones that start right after the cursor and that are the
      log's records at those offsets keeps the store caught up. */
  lemma ReplayKeepsCaughtUp(s: State, keys: seq<Key>)
    requires CaughtUp(s) && s.loaded + 1 + |keys| <= |s.log|
    requires s.log[s.loaded + 1 .. s.loaded + 1 + |keys|] == TombstoneBatch(keys)
    ensures CaughtUp(ReplayTombstones(s, s.loaded + 1, keys))
  {
    var t := ReplayTombstones(s, s.loaded + 1, keys);
    var n := s.loaded + 1;
    assert |s.store| == n;
    forall i | 0 <= i < |t.store|
      ensures t.store[i] == Applied(i, s.log[i])
    {
      if i < n {
        assert t.store[i] == t.store[..n][i];
      } else {
        assert s.log[i] == s.log[n .. n + |keys|][i - n];
      }
    }
    assert t.store == Folded(t.log, t.loaded + 1);
  }

  /** Replaying from an offset beyond the one after the cursor leaves a gap:
      the cursor passes offsets the store never folded. */
  lemma ReplayPastGapIsNotCaughtUp(s: State, offset: Offset, keys: seq<Key>)
    requires CaughtUp(s) && offset > s.loaded + 1 && keys != []
    ensures !CaughtUp(ReplayTombstones(s, offset, keys))
  {
  }

  /** The corrected delete_subject_permanent_inner: as written, except that
      before replaying the tombstones the cursor catches up to the record just
      before the batch, so the records other writers landed ahead of it are
      folded too. The store stays caught up and only grows;
      PermanentDeleteFailures and PermanentDeleteReplaysConsecutively say what
      each case does. */
  function PermanentDelete(s: State, q: StoreQueries, sub: Subject, version: Option<SchemaVersion>,
                           interleaved: seq<Entry>, produceError: ErrorCode): (r: (State, Result<seq<SchemaVersion>>))
    requires CaughtUp(s)
    ensures CaughtUp(r.0)
    ensures s.log <= r.0.log && s.store <= r.0.store && s.loaded <= r.0.loaded
  {
    match q.writtenAt(s.store, sub, version)
    case Failure(e) => (s, Failure(e))
    case Success(markers) => DeleteTombstones(s, TombstoneKeys(sub, markers), interleaved, produceError)
  }

  /** The part of the corrected delete after the markers are read: produce
      the tombstones as one batch (an error code throws), then catch up and
      replay them. */
  function DeleteTombstones(s: State, keys: seq<Key>, interleaved: seq<Entry>, produceError: ErrorCode)
    : (r: (State, Result<seq<SchemaVersion>>))
    requires CaughtUp(s)
    ensures CaughtUp(r.0)
    ensures s.log <= r.0.log && s.store <= r.0.store && s.loaded <= r.0.loaded
  {
    var log := AfterProduce(s.log, TombstoneBatch(keys), interleaved, produceError);
    var res := ProduceReply(s.log, interleaved, produceError);
    CaughtUpOnLongerLog(s, log);
    if res.errorCode != NoError then (State(log, s.store, s.loaded), Failure(KafkaException(res.errorCode)))
    else (ReplayLandedBatch(State(log, s.store, s.loaded), res.baseOffset, keys), Success([]))
  }

  /** The success tail of the corrected delete, on the log the batch landed
      in: catch up to the record just before the batch, then replay it. */
  function ReplayLandedBatch(landed: State, base: Offset, keys: seq<Key>): (t: State)
    requires CaughtUp(landed) && landed.loaded < base && base + |keys| == |landed.log|
    requires landed.log[base..] == TombstoneBatch(keys)
    ensures CaughtUp(t) && t.log == landed.log
    ensures landed.store <= t.store && landed.loaded <= t.loaded
  {
    ReplayAfterCatchUp(landed, base, keys);
    ReplayTombstones(CatchUp(landed, base - 1), base, keys)
  }

  /** The corrected delete fails exactly when the store cannot list the
      victim's markers or the produce returns an error code; either way store
      and cursor are left as they were, the log gaining only the other
      writers' records. */
  lemma PermanentDeleteFailures(s: State, q: StoreQueries, sub: Subject, version: Option<SchemaVersion>,
                                interleaved: seq<Entry>, produceError: ErrorCode)
    requires CaughtUp(s)
    ensures var r := PermanentDelete(s, q, sub, version, interleaved, produceError);
      && (r.1.Success? <==> q.writtenAt(s.store, sub, version).Success? && produceError == NoError)
      && (r.1.Failure? ==> r.0.store == s.store && r.0.loaded == s.loaded)
      && (q.writtenAt(s.store, sub, version).Failure? ==> r == (s, Failure(q.writtenAt(s.store, sub, version).error)))
      && (q.writtenAt(s.store, sub, version).Success? && produceError != NoError ==>
            r == (State(s.log + interleaved, s.store, s.loaded), Failure(KafkaException(produceError))))
  {
    if q.writtenAt(s.store, sub, version).Failure? {
      PermanentDeleteMissing(s, q, sub, version, interleaved, produceError);
    } else {
      var keys := TombstoneKeys(sub, q.writtenAt(s.store, sub, version).value);
      PermanentDeleteListed(s, q, sub, version, interleaved, produceError);
      if produceError != NoError {
        TombstonesRejected(s, keys, interleaved, produceError);
        assert AfterProduce(s.log, TombstoneBatch(keys), interleaved, produceError) == s.log + interleaved;
      } else {
        TombstonesLanded(s, keys, interleaved);
      }
    }
  }

  /** On success the corrected delete returns an empty list, the log gained
      the other writers' records and then the batch, the store ends with the
      tombstones, the i-th key's at its own offset base + i, and the cursor
      ends on the last of them. */
  lemma PermanentDeleteReplaysConsecutively(s: State, q: StoreQueries, sub: Subject, version: Option<SchemaVersion>,
                                            interleaved: seq<Entry>)
    requires CaughtUp(s) && q.writtenAt(s.store, sub, version).Success?
    ensures var r := PermanentDelete(s, q, sub, version, interleaved, NoError);
      var keys := TombstoneKeys(sub, q.writtenAt(s.store, sub, version).value);
      var base := |s.log| + |interleaved|;
      && r.1 == Success([])
      && r.0.log == s.log + interleaved + TombstoneBatch(keys)
      && r.0.loaded == base + |keys| - 1
      && r.0.store[base..] == TombstonesAt(base, keys)
  {
    PermanentDeleteListed(s, q, sub, version, interleaved, NoError);
    TombstonesReplayConsecutively(s, TombstoneKeys(sub, q.writtenAt(s.store, sub, version).value), interleaved);
  }

  /** The landed tombstones, replayed: the log gained the other writers'
      records and then the batch, and the store ends with the tombstones at
      consecutive offsets from the base. */
  lemma TombstonesReplayConsecutively(s: State, keys: seq<Key>, interleaved: seq<Entry>)
    requires CaughtUp(s)
    ensures var r := DeleteTombstones(s, keys, interleaved, NoError);
      var base := |s.log| + |interleaved|;
      && r.1 == Success([])
      && r.0.log == s.log + interleaved + TombstoneBatch(keys)
      && r.0.loaded == base + |keys| - 1
      && r.0.store[base..] == TombstonesAt(base, keys)
  {
    var log := s.log + interleaved + TombstoneBatch(keys);
    TombstonesLanded(s, keys, interleaved);
    assert AfterProduce(s.log, TombstoneBatch(keys), interleaved, NoError) == log;
    BatchLanded(s, interleaved, keys);
    ReplayAfterCatchUp(State(log, s.store, s.loaded), |s.log| + |interleaved|, keys);
  }

  /** The corrected delete when the store cannot list the victim's markers. */
  lemma PermanentDeleteMissing(s: State, q: StoreQueries, sub: Subject, version: Option<SchemaVersion>,
                               interleaved: seq<Entry>, produceError: ErrorCode)
    requires CaughtUp(s) && q.writtenAt(s.store, sub, version).Failure?
    ensures PermanentDelete(s, q, sub, version, interleaved, produceError)
      == (s, Failure(q.writtenAt(s.store, sub, version).error))
  {
  }

  /** The corrected delete when the store lists the victim's markers. */
  lemma PermanentDeleteListed(s: State, q: StoreQueries, sub: Subject, version: Option<SchemaVersion>,
                              interleaved: seq<Entry>, produceError: ErrorCode)
    requires CaughtUp(s) && q.writtenAt(s.store, sub, version).Success?
    ensures PermanentDelete(s, q, sub, version, interleaved, produceError)
      == DeleteTombstones(s, TombstoneKeys(sub, q.writtenAt(s.store, sub, version).value), interleaved, produceError)
  {
  }

  /** The tombstones' produce returns an error code: only the other writers'
      records land and the store is untouched. */
  lemma TombstonesRejected(s: State, keys: seq<Key>, interleaved: seq<Entry>, produceError: ErrorCode)
    requires CaughtUp(s) && produceError != NoError
    ensures DeleteTombstones(s, keys, interleaved, produceError)
      == (State(AfterProduce(s.log, TombstoneBatch(keys), interleaved, produceError), s.store, s.loaded),
          Failure(KafkaException(produceError)))
  {
  }

  /** The tombstones land, in the terms the writer computes it: catch up to
      just before the base offset, then replay. */
  lemma TombstonesLanded(s: State, keys: seq<Key>, interleaved: seq<Entry>)
    requires CaughtUp(s)
    ensures var log := AfterProduce(s.log, TombstoneBatch(keys), interleaved, NoError);
      var res := ProduceReply(s.log, interleaved, NoError);
      && CaughtUp(State(log, s.store, s.loaded))
      && DeleteTombstones(s, keys, interleaved, NoError)
         == (ReplayTombstones(CatchUp(State(log, s.store, s.loaded), res.baseOffset - 1), res.baseOffset, keys), Success([]))
  {
    CaughtUpOnLongerLog(s, AfterProduce(s.log, TombstoneBatch(keys), interleaved, NoError));
  }

  /** Catching up to the record just before a landed batch and replaying it
      from there keeps the store caught up and leaves the log as it is, the
      cursor on the batch's last record and the tombstones at the end of the
      store, each at its own offset. */
  lemma ReplayAfterCatchUp(before: State, base: Offset, keys: seq<Key>)
    requires CaughtUp(before) && before.loaded < base && base + |keys| == |before.log|
    requires before.log[base..] == TombstoneBatch(keys)
    ensures CatchUp(before, base - 1).loaded == base - 1
    ensures var t := ReplayTombstones(CatchUp(before, base - 1), base, keys);
      && CaughtUp(t)
      && t.log == before.log
      && t.loaded == base + |keys| - 1
      && t.store[base..] == TombstonesAt(base, keys)
  {
    var caught := CatchUp(before, base - 1);
    assert caught.loaded == base - 1 && |caught.store| == base by {
      assert Min(base - 1, |before.log| - 1) == base - 1;
    }
    assert caught.log[base..base + |keys|] == TombstoneBatch(keys);
    ReplayKeepsCaughtUp(caught, keys);
    ReplayEndsWithTombstones(caught, base, keys);
  }

  /** The log after a successful produce of the tombstones holds the batch
      from the base offset on, and the store is still caught up with it. */
  lemma BatchLanded(s: State, interleaved: seq<Entry>, keys: seq<Key>)
    requires CaughtUp(s)
    ensures var log := s.log + interleaved + TombstoneBatch(keys);
      && log[|s.log| + |interleaved|..] == TombstoneBatch(keys)
      && CaughtUp(State(log, s.store, s.loaded))
  {
    var log := s.log + interleaved + TombstoneBatch(keys);
    assert log == (s.log + interleaved) + TombstoneBatch(keys);
    CaughtUpOnLongerLog(s, log);
  }

  /** The i-th tombstone applied at offset base + i. */
  function TombstonesAt(base: Offset, keys: seq<Key>): (r: seq<Applied>)
    ensures |r| == |keys|
    ensures forall i :: 0 <= i < |keys| ==> r[i] == Applied(base + i, Entry(keys[i], None))
  {
    seq(|keys|, i requires 0 <= i < |keys| => Applied(base + i, Entry(keys[i], None)))
  }

  /** The replayed tombstones follow the store's old records, the i-th at offset + i. */
  lemma ReplayEndsWithTombstones(s: State, offset: Offset, keys: seq<Key>)
    ensures ReplayTombstones(s, offset, keys).store[|s.store|..] == TombstonesAt(offset, keys)
  {
    var t := ReplayTombstones(s, offset, keys);
    forall i | 0 <= i < |keys|
      ensures t.store[|s.store|..][i] == TombstonesAt(offset, keys)[i]
    {
      assert t.store[|s.store| + i] == Applied(offset + ((|s.store| + i) - |s.store|), Entry(keys[(|s.store| + i) - |s.store|], None));
    }
  }

  /** Every record the as-written replay leaves in the store is either one the
      store had or a tombstone at `offset` or later. */
  lemma ReplayedOffsets(s: State, offset: Offset, keys: seq<Key>, a: Applied)
    requires a in ReplayTombstones(s, offset, keys).store
    ensures a in s.store || a.offset >= offset
  {
    var t := ReplayTombstones(s, offset, keys);
    var i :| 0 <= i < |t.store| && t.store[i] == a;
    if i < |s.store| {
      assert t.store[..|s.store|] == s.store;
      assert a == s.store[i];
    }
  }

  /** The discrepancy, for any state: when another writer's records land
      ahead of the tombstones, the code as written moves the cursor past them
      without ever folding the first of them, and the store is no longer
      caught up (a later wait_for starts after the cursor and skips them). */
  lemma AsWrittenSkipsInterleaved(s: State, q: StoreQueries, sub: Subject, version: Option<SchemaVersion>,
                                  interleaved: seq<Entry>)
    requires CaughtUp(s) && interleaved != []
    requires q.writtenAt(s.store, sub, version).Success?
    ensures var r := AsWrittenPermanentDelete(s, q, sub, version, interleaved, NoError);
      && r.1 == Success([])
      && r.0.loaded > |s.log|
      && (forall a :: a in r.0.store ==> a.offset != |s.log|)
      && !CaughtUp(r.0)
  {
    var keys := TombstoneKeys(sub, q.writtenAt(s.store, sub, version).value);
    var log := s.log + interleaved + TombstoneBatch(keys);
    var base := |s.log| + |interleaved|;
    var before := State(log, s.store, s.loaded);
    var t := ReplayTombstones(before, base, keys);
    assert AsWrittenPermanentDelete(s, q, sub, version, interleaved, NoError) == (t, Success([]));
    CaughtUpOnLongerLog(s, log);
    ReplayPastGapIsNotCaughtUp(before, base, keys);
    forall a | a in t.store
      ensures a.offset != |s.log|
    {
      ReplayedOffsets(before, base, keys, a);
      if a in s.store {
        var i :| 0 <= i < |s.store| && s.store[i] == a;
        assert a.offset == i;
      }
    }
  }

  /** A concrete instance: the cursor is at 0 with the log holding one record;
      another node's record lands at offset 1 and the single tombstone at 2.
      As written the cursor ends at 2 while offset 1 is never folded. */
  lemma AsWrittenSkipsOffsetOne(q: StoreQueries, theirs: Entry, mine: Entry)
    requires q.writtenAt([Applied(0, mine)], "s1", None).Success?
    ensures var s := State([mine], [Applied(0, mine)], 0);
      var r := AsWrittenPermanentDelete(s, q, "s1", None, [theirs], NoError);
      r.0.loaded >= 2 && Applied(1, theirs) !in r.0.store
  {
    var s := State([mine], [Applied(0, mine)], 0);
    assert Folded(s.log, 1) == [Applied(0, mine)];
    AsWrittenSkipsInterleaved(s, q, "s1", None, [theirs]);
  }
}
