/** The sequenced writer itself: one owner of the cursor `_loaded_offset` and
    of the store it keeps caught up with the internal topic. Every method is
    proved against the functions of Replay, Writes and Tombstones: the state
    it leaves is the one those functions compute from the state it found. */
module Sequencer {
  import opened RegistryTypes
  import opened InternalTopic
  import opened Replay
  import opened Writes
  import opened Tombstones

  class SeqWriter {
    /** The internal topic's only partition. */
    const topic: Topic
    /** The store's read operations. */
    const queries: StoreQueries
    /** This node's id, stamped on every key it writes. */
    const nodeId: NodeId
    /** `_loaded_offset`: the last offset folded into the store, -1 for none. */
    var loadedOffset: Offset
    /** The records folded into the store, in the order they were applied. */
    var store: seq<Applied>

    function Snapshot(): State
      reads this, topic
    {
      State(topic.entries, store, loadedOffset)
    }

    /** The store holds exactly the log up to and including the cursor. */
    predicate Valid()
      reads this, topic
    {
      CaughtUp(Snapshot())
    }

    constructor (topic: Topic, queries: StoreQueries, nodeId: NodeId)
      ensures this.topic == topic && this.queries == queries && this.nodeId == nodeId
      ensures loadedOffset == -1 && store == []
      ensures Valid()
    {
      this.topic := topic;
      this.queries := queries;
      this.nodeId := nodeId;
      loadedOffset := -1;
      store := [];
    }

    /** advance_offset_inner: move the cursor forward, never back. */
    method AdvanceOffsetInner(offset: Offset)
      modifies this`loadedOffset
      ensures loadedOffset == Advance(old(loadedOffset), offset)
    {
      if loadedOffset < offset {
        loadedOffset := offset;
      }
    }

    /** The store side of consume_to_store: fold one record at its offset. */
    method Apply(offset: Offset, entry: Entry)
      modifies this`store
      ensures store == old(store) + [Applied(offset, entry)]
    {
      store := store + [Applied(offset, entry)];
    }

    /** The fetch loop of wait_for: fold the records at offsets [from, end)
        one at a time, advancing the cursor to each. */
    method FoldFetched(from: Offset, end: Offset)
      requires Valid() && loadedOffset == from - 1 && from <= end <= |topic.entries|
      modifies this`loadedOffset, this`store
      ensures store == old(store) + FoldRange(topic.entries, from, end)
      ensures loadedOffset == end - 1
      ensures Valid()
    {
      var o := from;
      while o < end
        invariant from <= o <= end
        invariant loadedOffset == o - 1
        invariant store == old(store) + FoldRange(topic.entries, from, o)
        invariant Valid()
        decreases end - o
      {
        FoldNext(Snapshot());
        FoldRangeExtend(topic.entries, from, o);
        Apply(o, topic.entries[o]);
        AdvanceOffsetInner(o);
        o := o + 1;
      }
    }

    /** wait_for: when the target is ahead of the cursor, fetch the range
        CatchUpRange names and fold each record of it the log has, advancing
        the cursor to it; otherwise do nothing. The store gains exactly the
        fetched records, stays caught up, and the state is exactly CatchUp of
        the old one. */
    method WaitFor(offset: Offset) returns (fetched: Option<Range>)
      requires Valid()
      modifies this`loadedOffset, this`store
      ensures fetched == CatchUpRange(old(loadedOffset), offset)
      ensures fetched.None? ==> store == old(store) && loadedOffset == old(loadedOffset)
      ensures fetched.Some? ==>
        (0 <= fetched.value.from <= Min(fetched.value.to, |topic.entries|) &&
         store == old(store) + FoldRange(topic.entries, fetched.value.from, Min(fetched.value.to, |topic.entries|)))
      ensures Snapshot() == CatchUp(old(Snapshot()), offset)
      ensures Valid()
    {
      fetched := CatchUpRange(loadedOffset, offset);
      if fetched.Some? {
        CatchUpFoldsRange(Snapshot(), offset);
        // The fetch yields the records of [from, to) that the log has.
        FoldFetched(fetched.value.from, Min(fetched.value.to, |topic.entries|));
      }
    }

    /** read_sync: ask for the partition's end offset and wait for the record
        before it. A reply without exactly one topic and one partition, or
        with an error code, throws and changes nothing. */
    method ReadSync(resp: ListOffsetsResponse) returns (r: Result<()>)
      requires Valid()
      modifies this`loadedOffset, this`store
      ensures Valid()
      ensures r.Success? <==> ReadSyncTarget(resp).Success?
      ensures r.Failure? ==> r.error == ReadSyncTarget(resp).error && Snapshot() == old(Snapshot())
      ensures r.Success? ==> Snapshot() == CatchUp(old(Snapshot()), ReadSyncTarget(resp).value)
    {
      var topics := resp.topics;
      if |topics| != 1 || |topics[0].partitions| != 1 {
        return Failure(KafkaException(UnknownTopicOrPartition));
      }
      var partition := topics[0].partitions[0];
      if partition.errorCode != NoError {
        return Failure(KafkaException(partition.errorCode));
      }
      var _ := WaitFor(partition.offset - 1);
      return Success(());
    }

    /** produce_and_check: produce the batch; an error code throws, otherwise
        report whether it landed at the predicted offset. The store and cursor
        are untouched and stay caught up with the longer log. */
    method ProduceAndCheck(writeAt: Offset, batch: seq<Entry>, interleaved: seq<Entry>, errorCode: ErrorCode)
      returns (r: Result<bool>)
      requires Valid()
      modifies topic
      ensures Valid()
      ensures topic.entries == AfterProduce(old(topic.entries), batch, interleaved, errorCode)
      ensures r == LandCheck(writeAt, ProduceReply(old(topic.entries), interleaved, errorCode))
    {
      var res := topic.Produce(batch, interleaved, errorCode);
      CaughtUpOnLongerLog(old(Snapshot()), topic.entries);
      if res.errorCode != NoError {
        return Failure(KafkaException(res.errorCode));
      }
      return Success(res.baseOffset == writeAt);
    }

    /** The tail every do_write body shares: produce_and_check the record,
        and when it landed at the prediction apply it there and advance the
        cursor to it. */
    method Land(writeAt: Offset, entry: Entry, interleaved: seq<Entry>, produceError: ErrorCode)
      returns (r: Result<bool>)
      requires Valid() && writeAt == loadedOffset + 1
      modifies this`loadedOffset, this`store, topic
      ensures Valid()
      ensures r == LandCheck(writeAt, ProduceReply(old(topic.entries), interleaved, produceError))
      ensures topic.entries == AfterProduce(old(topic.entries), [entry], interleaved, produceError)
      ensures r == Success(true) ==>
        store == old(store) + [Applied(writeAt, entry)] && loadedOffset == Advance(old(loadedOffset), writeAt)
      ensures r != Success(true) ==> store == old(store) && loadedOffset == old(loadedOffset)
    {
      r := ProduceAndCheck(writeAt, [entry], interleaved, produceError);
      if r == Success(true) {
        FoldNext(Snapshot());
        Apply(writeAt, entry);
        AdvanceOffsetInner(writeAt);
      }
    }

    /** The do_write body of `op` at the predicted offset: decide from the
        store (fail, no-op, or a record to append), and land the record. */
    method DoWrite(op: Op, writeAt: Offset, interleaved: seq<Entry>, produceError: ErrorCode)
      returns (r: Result<Option<Outcome>>)
      requires Valid() && writeAt == loadedOffset + 1
      modifies this`loadedOffset, this`store, topic
      ensures (Snapshot(), r) == TryWriteSpec(old(Snapshot()), queries, nodeId, op, writeAt, interleaved, produceError)
      ensures Valid()
    {
      var plan := PlanFor(op, queries, store, writeAt, nodeId);
      if !plan.Append? {
        TryWriteSettlesEarly(Snapshot(), queries, nodeId, op, writeAt, interleaved, produceError);
        return if plan.Failed? then Failure(plan.error) else Success(Some(plan.outcome));
      }
      TryWriteAppends(Snapshot(), queries, nodeId, op, writeAt, interleaved, produceError);
      var landed := Land(writeAt, plan.entry, interleaved, produceError);
      match landed
      case Failure(e) =>
        return Failure(e);
      case Success(ok) =>
        return if ok then Success(Some(plan.outcome)) else Success(None);
    }

    /** One round of sequenced_write: read_sync, then the write at the
        offset after the cursor. */
    method SyncAndWrite(op: Op, a: Attempt) returns (r: Result<Option<Outcome>>)
      requires Valid()
      modifies this`loadedOffset, this`store, topic
      ensures (Snapshot(), r) == Round(old(Snapshot()), queries, nodeId, op, a)
      ensures Valid()
    {
      ghost var before := Snapshot();
      var sync := ReadSync(a.offsets);
      if sync.Failure? {
        RoundRefused(before, queries, nodeId, op, a);
        return Failure(sync.error);
      }
      RoundSynced(before, queries, nodeId, op, a);
      ghost var synced := Snapshot();
      r := DoWrite(op, loadedOffset + 1, a.interleaved, a.produceError);
      assert (Snapshot(), r) == TryWriteSpec(synced, queries, nodeId, op, synced.loaded + 1, a.interleaved, a.produceError);
    }

    /** sequenced_write: run rounds while they report a conflict; an error or
        a result ends the loop. */
    method SequencedWrite(op: Op, attempts: seq<Attempt>) returns (r: Result<Outcome>)
      requires Valid()
      modifies this`loadedOffset, this`store, topic
      ensures (Snapshot(), r) == Retry(old(Snapshot()), queries, nodeId, op, attempts)
      ensures Valid()
    {
      var i := 0;
      while i < |attempts|
        invariant 0 <= i <= |attempts|
        invariant Valid()
        invariant Retry(old(Snapshot()), queries, nodeId, op, attempts) == Retry(Snapshot(), queries, nodeId, op, attempts[i..])
        decreases |attempts| - i
      {
        assert attempts[i..][0] == attempts[i] && attempts[i..][1..] == attempts[i + 1..];
        RetryStep(Snapshot(), queries, nodeId, op, attempts[i..]);
        var res := SyncAndWrite(op, attempts[i]);
        match res
        case Failure(e) =>
          return Failure(e);
        case Success(Some(v)) =>
          return Success(v);
        case Success(None) =>
        i := i + 1;
      }
      return Failure(RetriesExhausted);
    }

    /** The replay loop of delete_subject_permanent_inner: apply the i-th
        key's tombstone at `offset + i` and advance the cursor to it. */
    method ApplyTombstones(offset: Offset, keys: seq<Key>)
      modifies this`loadedOffset, this`store
      ensures Snapshot() == ReplayTombstones(old(Snapshot()), offset, keys)
    {
      var at := offset;
      for i := 0 to |keys|
        invariant at == offset + i
        invariant ReplayTombstones(Snapshot(), at, keys[i..]) == ReplayTombstones(old(Snapshot()), offset, keys)
      {
        assert keys[i..][0] == keys[i] && keys[i..][1..] == keys[i + 1..];
        ReplayStep(Snapshot(), at, keys[i..]);
        Apply(at, Entry(keys[i], None));
        AdvanceOffsetInner(at);
        at := at + 1;
      }
      assert keys[|keys|..] == [];
    }

    /** The tail of the corrected delete: wait for the record just before
        the batch, then replay the batch's tombstones from its base offset. */
    method CatchUpAndReplay(base: Offset, keys: seq<Key>)
      requires Valid()
      modifies this`loadedOffset, this`store
      ensures Snapshot() == ReplayTombstones(CatchUp(old(Snapshot()), base - 1), base, keys)
    {
      var _ := WaitFor(base - 1);
      ApplyTombstones(base, keys);
    }

    /** The produce and replay of delete_subject_permanent_inner, corrected:
        produce the tombstones as one batch, then catch up to the record just
        before the batch and replay each tombstone at its own offset,
        advancing the cursor past it. */
    method ProduceAndReplay(keys: seq<Key>, batch: seq<Entry>, interleaved: seq<Entry>, produceError: ErrorCode)
      returns (r: Result<seq<SchemaVersion>>)
      requires Valid() && batch == TombstoneBatch(keys)
      modifies this`loadedOffset, this`store, topic
      ensures (Snapshot(), r) == DeleteTombstones(old(Snapshot()), keys, interleaved, produceError)
      ensures Valid()
    {
      var res := topic.Produce(batch, interleaved, produceError);
      if res.errorCode != NoError {
        TombstonesRejected(old(Snapshot()), keys, interleaved, produceError);
        return Failure(KafkaException(res.errorCode));
      }
      assert produceError == NoError;
      TombstonesLanded(old(Snapshot()), keys, interleaved);
      CatchUpAndReplay(res.baseOffset, keys);
      return Success([]);
    }

    /** delete_subject_permanent_inner, corrected: read the markers (the
        store throws when the victim is missing), build the tombstones, then
        produce and replay them. */
    method DeleteSubjectPermanentInner(sub: Subject, version: Option<SchemaVersion>,
                                       interleaved: seq<Entry>, produceError: ErrorCode)
      returns (r: Result<seq<SchemaVersion>>)
      requires Valid()
      modifies this`loadedOffset, this`store, topic
      ensures (Snapshot(), r) == PermanentDelete(old(Snapshot()), queries, sub, version, interleaved, produceError)
      ensures Valid()
    {
      var sequences := queries.writtenAt(store, sub, version);
      if sequences.Failure? {
        PermanentDeleteMissing(Snapshot(), queries, sub, version, interleaved, produceError);
        return Failure(sequences.error);
      }
      PermanentDeleteListed(Snapshot(), queries, sub, version, interleaved, produceError);
      var keys, batch := BuildTombstones(sub, sequences.value);
      r := ProduceAndReplay(keys, batch, interleaved, produceError);
    }
  }
}
