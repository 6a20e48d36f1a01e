# Sequenced writer of the schema registry

This project models the sequenced writer of Redpanda's schema registry
(`src/v/pandaproxy/schema_registry/seq_writer.cc`). The registry keeps its
state in an internal Kafka topic, an append-only log, and materialises that
log into an in-memory store. The writer keeps a cursor, `_loaded_offset`,
which is the last offset it has folded into the store. It turns the log into
an optimistic compare-and-land register:

- a write predicts that its record will land at the offset after the cursor;
- it produces the record and checks where the record actually landed;
- when the record landed there, the writer applies it to the store and
  advances the cursor;
- when another writer got there first, it reports a conflict, and the retry
  driver tries again. The model assumes the driver syncs with `read_sync`
  before each try; see `Writes.Round` under Left out.

Permanent deletion is different. It produces one batch of tombstones without
predicting an offset, then replays the batch into the store.

## Structure

- `types.dfy` (`RegistryTypes`) holds the registry's keys, values, seq
  markers, Kafka replies and the four predicted-offset operations. It also
  holds the store's read operations. These are functions of the records
  applied so far, and the model does not interpret them.
- `internal_topic.dfy` (`InternalTopic`) is the internal topic: a `Topic`
  class whose log grows on every produce.
  - Other writers' records (`interleaved`) are an input of each produce, and
    they land ahead of ours.
  - The produce's error code is an input too.
  - On success, the base offset in the reply is the log length at the moment
    our batch is appended.
- `replay.dfy` (`Replay`) is the abstract state of one owner: the log, the
  records folded into the store, and the cursor.
  - The central invariant is `CaughtUp`. It says the store holds exactly the
    log's records up to and including the cursor, each once and in offset
    order.
  - The module also defines cursor advance, the catch-up done by `wait_for`,
    and the validation done by `read_sync`.
- `writes.dfy` (`Writes`) covers the predicted-offset writes.
  - The land check of `produce_and_check`.
  - The no-op check and the record built by each of the four `do_write`
    bodies.
  - One attempt of a write (`TryWriteSpec`) and one round (`Round`:
    `read_sync`, then the attempt).
  - The retry driver (`Retry`).
- `tombstones.dfy` (`Tombstones`) covers permanent deletion.
  - The tombstone keys, one per seq marker.
  - The replay, both as the source writes it (`AsWrittenPermanentDelete`) and
    corrected (`PermanentDelete`).
- `seq_writer.dfy` (`Sequencer`) holds the `SeqWriter` class. Its fields are
  the cursor and the store; it also holds the topic, the store queries and
  the node id.
  - Each operation method is proved against the function that specifies it:
    the state it leaves is the one that function computes from the state it
    found.
  - The class invariant is `Valid()`, which is `CaughtUp` of the current
    state. The operations require it and keep it: `WaitFor`, `FoldFetched`,
    `ReadSync`, `ProduceAndCheck`, `Land`, `DoWrite`, `SyncAndWrite`,
    `SequencedWrite`, `ProduceAndReplay` and `DeleteSubjectPermanentInner`.
  - The single steps do not keep `Valid()` on their own:
    - `AdvanceOffsetInner` moves the cursor alone, and `Apply` appends to the
      store alone;
    - `ApplyTombstones` is the replay loop;
    - `CatchUpAndReplay` is the corrected replay tail. Its result is caught
      up only when the replayed keys are the log's records at those offsets,
      which `ProduceAndReplay` establishes.
    The callers restore the invariant around these steps.
  - `DeleteSubjectPermanentInner` runs the corrected permanent delete
    (`PermanentDelete`), not the source's, which the Findings section shows
    to be wrong. The source's version is modelled as
    `AsWrittenPermanentDelete`.

## Model

| member | source | states |
|---|---|---|
| Replay.Advance | src/v/pandaproxy/schema_registry/seq_writer.cc:112-127 | The advanced cursor is at least the old cursor and at least the offset, and it is one of the two: an offset not ahead of the cursor is ignored. |
| Sequencer.SeqWriter.AdvanceOffsetInner | src/v/pandaproxy/schema_registry/seq_writer.cc:112-127 | Updates `loadedOffset` in place to `Advance(old, offset)`, and nothing else changes. |
| Replay.AdvanceAllIsMax | src/v/pandaproxy/schema_registry/seq_writer.cc:112-127 | After any series of advances, the cursor is the maximum of its old value and all the offsets given. |
| Replay.AdvanceAllOrderFree | src/v/pandaproxy/schema_registry/seq_writer.cc:112-127 | Advances commute: any permutation of the offsets gives the same cursor. Repeating them changes nothing. |
| Replay.CatchUpRange | src/v/pandaproxy/schema_registry/seq_writer.cc:52-68 | No fetch exactly when the target is not ahead of the cursor. Otherwise the fetch is the half-open range [cursor+1, target+1), which is never empty. `CatchUpFoldsRange` ties the range to what is folded. |
| Replay.CatchUpFoldsRange | src/v/pandaproxy/schema_registry/seq_writer.cc:52-64 | When the target is ahead of the cursor, wait_for folds exactly the fetched range's records that the log has, after the old store and in offset order, and the cursor ends on the last of them. |
| Replay.CatchUp | src/v/pandaproxy/schema_registry/seq_writer.cc:49-72 | wait_for keeps the store caught up with the same log. It moves the cursor to the target, clamped to the log's last record, and never back. The store only grows. |
| Replay.CatchUpCleanIsNoOp | src/v/pandaproxy/schema_registry/seq_writer.cc:65-68 | A target the cursor has reached fetches nothing and leaves the state unchanged. |
| Replay.CatchUpTwice | src/v/pandaproxy/schema_registry/seq_writer.cc:52-64 | Waiting for y after waiting for x, with y <= x, changes nothing. When x is within the log, the second wait fetches nothing. |
| Replay.CaughtUpOnLongerLog | src/v/pandaproxy/schema_registry/seq_writer.cc:379-381 | Records anyone appends to the log leave a caught-up store caught up. |
| Sequencer.SeqWriter.FoldFetched | src/v/pandaproxy/schema_registry/seq_writer.cc:59-64 | The fetch loop folds the records of [from, end), in order, advancing the cursor to each. The store gains exactly those records, and `Valid` is kept. |
| Sequencer.SeqWriter.WaitFor | src/v/pandaproxy/schema_registry/seq_writer.cc:49-72 | With no range to fetch, nothing changes. Otherwise it fetches the range `CatchUpRange` names, and the store gains exactly that range's records the log has. The state becomes exactly `CatchUp` of the old state, and `Valid` is kept. |
| Replay.ReadSyncTarget | src/v/pandaproxy/schema_registry/seq_writer.cc:30-47 | Success iff there is exactly one topic with exactly one partition and no error code. Otherwise it fails with unknown_topic_or_partition, or else with the partition's error code. On success it waits for end offset - 1. |
| Sequencer.SeqWriter.ReadSync | src/v/pandaproxy/schema_registry/seq_writer.cc:30-47 | On a rejected reply it throws the same error and changes nothing. Otherwise the state becomes `CatchUp` at end - 1. `Valid` is kept. |
| InternalTopic.AfterProduce | src/v/pandaproxy/schema_registry/seq_writer.cc:379-381 | The log only grows. Other writers' records come first. The batch follows them exactly when there is no error code. |
| InternalTopic.ProduceReply | src/v/pandaproxy/schema_registry/seq_writer.cc:379-381 | The reply carries the error code. On success the base offset is where the batch's first record landed. |
| InternalTopic.Topic.Produce | src/v/pandaproxy/schema_registry/seq_writer.cc:379-381 | The topic's entries become `AfterProduce` of the old entries, and the reply is `ProduceReply`. |
| Writes.LandCheck | src/v/pandaproxy/schema_registry/seq_writer.cc:87-103 | Throws iff the reply has an error code, and throws that code. Otherwise it returns true iff base_offset == write_at. |
| Sequencer.SeqWriter.ProduceAndCheck | src/v/pandaproxy/schema_registry/seq_writer.cc:80-104 | The log becomes `AfterProduce`, and the verdict is `LandCheck` of the reply. Store and cursor stay caught up with the longer log. |
| Writes.PlanWriteSubjectVersion | src/v/pandaproxy/schema_registry/seq_writer.cc:136-178 | No append iff the projection reports the schema already present. Either way the result is the projected id. The record is the schema key at write_at and this node, with a not-deleted schema value. |
| Writes.PlanWriteConfig | src/v/pandaproxy/schema_registry/seq_writer.cc:197-224 | No append, returning false, iff the effective level equals the requested one. Otherwise it appends a config record for the same scope and returns true. |
| Writes.PlanDeleteSubjectVersion | src/v/pandaproxy/schema_registry/seq_writer.cc:236-260 | Never a no-op. Fails with the store's error iff the version cannot be read. Otherwise it re-writes the version's schema record unchanged, except that it is marked deleted. |
| Writes.PlanDeleteSubjectImpermanent | src/v/pandaproxy/schema_registry/seq_writer.cc:276-298 | Fails iff a store read fails, with that read's own error (the versions read first). No append iff the subject is already deleted. It always returns the version list unchanged. The record carries the list's last version. |
| Writes.PlanFor | src/v/pandaproxy/schema_registry/seq_writer.cc:131-303 | Any record a do_write body appends is keyed by write_at and this node, and carries a value. The result has the kind the operation returns. |
| Writes.TryWriteSpec | src/v/pandaproxy/schema_registry/seq_writer.cc:169-178 | One attempt keeps the store caught up. Log, store and cursor only grow. |
| Writes.TryWriteOutcome | src/v/pandaproxy/schema_registry/seq_writer.cc:169-178 | A store error or a no-op changes nothing. A produce error throws. The record lands iff the produce succeeds, nothing was interleaved and the cursor was at the log's end. A landed record is applied at write_at and the cursor moves to write_at. A mismatch returns None and leaves store and cursor unchanged. |
| Writes.TryWriteSettlesEarly | src/v/pandaproxy/schema_registry/seq_writer.cc:136-140 | A do_write body that settles before any I/O returns the store's error or the no-op result and leaves the state unchanged. |
| Writes.TryWriteAppends | src/v/pandaproxy/schema_registry/seq_writer.cc:214-224 | A do_write body that produces is decided by produce_and_check's verdict alone. An error throws. A landed record is applied and advances the cursor. A mismatch yields None. |
| Writes.ContendedAttemptAppliesNothing | src/v/pandaproxy/schema_registry/seq_writer.cc:176-178 | When another writer's record lands first, the attempt always returns None. It applies nothing and leaves the cursor. |
| Sequencer.SeqWriter.Apply | src/v/pandaproxy/schema_registry/seq_writer.cc:172-173 | The store side of `applier.apply(offset, key, value)`, as at :217-218, :257-258, :295-296 and :396-400: the record is appended to the store at the given offset, and nothing else changes. |
| Sequencer.SeqWriter.Land | src/v/pandaproxy/schema_registry/seq_writer.cc:169-178 | Produce and check. Only when the verdict is true is the record appended to the store at write_at and the cursor advanced to it. Otherwise store and cursor are unchanged. `Valid` is kept. |
| Sequencer.SeqWriter.DoWrite | src/v/pandaproxy/schema_registry/seq_writer.cc:131-303 | The do_write body of each operation leaves exactly the state and result of `TryWriteSpec`, and keeps `Valid`. |
| Writes.Round | src/v/pandaproxy/schema_registry/seq_writer.cc:182-183 | read_sync followed by one attempt keeps the store caught up, and state only grows. A result has the kind the operation returns. |
| Writes.RoundRefused | src/v/pandaproxy/schema_registry/seq_writer.cc:35-44 | A rejected list_offsets reply ends the round with its error and changes nothing. |
| Writes.RoundSynced | src/v/pandaproxy/schema_registry/seq_writer.cc:46-46 | An accepted reply catches up to end - 1, then writes at the offset after the cursor. |
| Sequencer.SeqWriter.SyncAndWrite | src/v/pandaproxy/schema_registry/seq_writer.cc:182-183 | One round leaves exactly the state and result of `Round`, and keeps `Valid`. |
| Writes.Retry | src/v/pandaproxy/schema_registry/seq_writer.cc:221-227 | Rounds repeat only while they return None. The store stays caught up and only grows. A result has the operation's kind. No attempts left means RetriesExhausted. |
| Writes.RetryStep | src/v/pandaproxy/schema_registry/seq_writer.cc:221-223 | An error or a result ends the driver. Only a None goes on to the remaining attempts. |
| Writes.FirstAttemptSettlesUncontended | src/v/pandaproxy/schema_registry/seq_writer.cc:169-175 | With a healthy reply, no interleaving, no produce error and no store error, the first round succeeds, and the cursor ends on the log's last record. |
| Sequencer.SeqWriter.SequencedWrite | src/v/pandaproxy/schema_registry/seq_writer.cc:182-183 | The retry loop leaves exactly the state and result of `Retry`, and keeps `Valid`. |
| Tombstones.TombstoneKey | src/v/pandaproxy/schema_registry/seq_writer.cc:347-367 | The key's kind is the marker's key_type. It carries the marker's seq and node and the deleted subject, and a schema key carries the marker's version. |
| Tombstones.TombstoneKeys | src/v/pandaproxy/schema_registry/seq_writer.cc:338-368 | One key per marker, in the markers' order. |
| Tombstones.TombstoneBatch | src/v/pandaproxy/schema_registry/seq_writer.cc:352-363 | One record per key, with that key and no value. |
| Tombstones.BuildTombstones | src/v/pandaproxy/schema_registry/seq_writer.cc:337-368 | The loop builds exactly `TombstoneKeys` and the batch of their tombstones. |
| Tombstones.ReplayTombstones | src/v/pandaproxy/schema_registry/seq_writer.cc:391-407 | The replay keeps the log and the old store. It appends the i-th key's tombstone at offset + i. The cursor ends at least at offset + n - 1. |
| Tombstones.ReplayKeepsCaughtUp | src/v/pandaproxy/schema_registry/seq_writer.cc:391-407 | Replaying from the offset after the cursor tombstones that are the log's records there keeps the store caught up. |
| Tombstones.ReplayPastGapIsNotCaughtUp | src/v/pandaproxy/schema_registry/seq_writer.cc:393-406 | Replaying from beyond the offset after the cursor always breaks `CaughtUp`. |
| Tombstones.ReplayEndsWithTombstones | src/v/pandaproxy/schema_registry/seq_writer.cc:393-406 | After the replay, the store's new suffix is exactly the tombstones at consecutive offsets. |
| Tombstones.ReplayedOffsets | src/v/pandaproxy/schema_registry/seq_writer.cc:393-406 | Every record after the replay is an old one or sits at offset or later. |
| Tombstones.AsWrittenPermanentDelete | src/v/pandaproxy/schema_registry/seq_writer.cc:320-409 | As written: a store error is rethrown with the state unchanged. A produce error throws its code; only the others' records land, and store and cursor are unchanged. Success implies no produce error and an empty result. On success the log gains the others' records and then the batch. The store keeps its old records and then holds the i-th tombstone at base + i. The cursor is advanced to base + n - 1, exactly that when it was within the log. |
| Tombstones.AsWrittenSkipsInterleaved | src/v/pandaproxy/schema_registry/seq_writer.cc:391-407 | As written, when another writer's records land ahead of the tombstones, the cursor passes them while the first is never folded. The store is no longer caught up. |
| Tombstones.AsWrittenSkipsOffsetOne | src/v/pandaproxy/schema_registry/seq_writer.cc:391-407 | Concrete instance: cursor 0, another record at 1, the tombstone at 2. The cursor ends at 2 or later, and offset 1 is never folded. |
| Tombstones.PermanentDelete | src/v/pandaproxy/schema_registry/seq_writer.cc:320-409 | The corrected delete keeps the store caught up. Log, store and cursor only grow. |
| Tombstones.DeleteTombstones | src/v/pandaproxy/schema_registry/seq_writer.cc:374-409 | Produce and replay keep the store caught up and only grow the state. |
| Tombstones.ReplayLandedBatch | src/v/pandaproxy/schema_registry/seq_writer.cc:391-407 | Catching up to just before a landed batch and replaying it keeps the store caught up on the same log. |
| Tombstones.ReplayAfterCatchUp | src/v/pandaproxy/schema_registry/seq_writer.cc:391-407 | The catch-up ends at base - 1. The replay then ends caught up, with the cursor on the batch's last record and the tombstones at base, base + 1, ... |
| Tombstones.PermanentDeleteFailures | src/v/pandaproxy/schema_registry/seq_writer.cc:327-389 | Fails iff the store cannot list the markers or the produce returns an error code. A failure leaves store and cursor unchanged. A produce error throws its code. The model has a failed produce append none of the batch, so only other writers' records land; see `Topic.Produce` under Left out. |
| Tombstones.PermanentDeleteReplaysConsecutively | src/v/pandaproxy/schema_registry/seq_writer.cc:391-409 | On success it returns an empty list. The log gains the others' records and then the batch. The i-th tombstone is applied at base_offset + i. The cursor ends at base_offset + n - 1. |
| Tombstones.TombstonesReplayConsecutively | src/v/pandaproxy/schema_registry/seq_writer.cc:391-409 | The same facts for the produce-and-replay tail, given any keys. |
| Tombstones.PermanentDeleteMissing | src/v/pandaproxy/schema_registry/seq_writer.cc:327-332 | The store's error is rethrown before any produce, and the state is unchanged. |
| Tombstones.TombstonesRejected | src/v/pandaproxy/schema_registry/seq_writer.cc:382-389 | A produce error throws its code, and the store is untouched. Under the model's failed produce, only the others' records land. |
| Sequencer.SeqWriter.ApplyTombstones | src/v/pandaproxy/schema_registry/seq_writer.cc:391-407 | The replay loop leaves exactly `ReplayTombstones` of the old state. |
| Sequencer.SeqWriter.CatchUpAndReplay | src/v/pandaproxy/schema_registry/seq_writer.cc:391-407 | wait_for(base - 1), then the replay, leaves exactly the corrected tail's state. |
| Sequencer.SeqWriter.ProduceAndReplay | src/v/pandaproxy/schema_registry/seq_writer.cc:374-409 | Produce, then replay, leaves exactly the state and result of `DeleteTombstones`, and keeps `Valid`. |
| Sequencer.SeqWriter.DeleteSubjectPermanentInner | src/v/pandaproxy/schema_registry/seq_writer.cc:320-410 | The whole permanent delete leaves exactly the state and result of `PermanentDelete`, and keeps `Valid`. |

## Left out

- The Seastar sharding is not modelled: `invoke_on(0, ...)`, `_smp_opts`, and the futures and coroutines. Neither are the wrappers `advance_offset` (seq_writer.cc:106-110) and `delete_subject_permanent` (seq_writer.cc:312-318), which only forward to shard 0. The model has one owner.
- Semaphore units (seq_writer.cc:51, :315) are not modelled. The model makes no mutual-exclusion claim. Concurrent callers on the same owner are not modelled, and neither are races between them.
- Kafka client I/O is not modelled directly.
  - `list_offsets` becomes a reply given as input.
  - `produce_record_batch` becomes `Topic.Produce`, where the other writers' records and the error code are inputs.
  - The fetch reader becomes the fold loop over the log.
  - A fetch reaching past the log's end yields only the records the log has.
  - Error messages are left out; only the error codes are kept.
- Serialisation is not modelled: `as_record_batch`, `to_json_iobuf`, `record_batch_builder`. Keys and values are datatypes.
- The store's own logic is not modelled: `project_ids`, `get_compatibility`, `get_subject_schema`, `get_versions`, `is_subject_deleted`, the `get_*_written_at` reads and `consume_to_store`. Each read is an uninterpreted function of the records applied so far, and applying a record appends it to that history. `projectIds` and `getCompatibility` are modelled as never throwing, so `write_subject_version` and `write_config` never end with a store error. In the source, the awaited reads at seq_writer.cc:136 and :200-202 can throw like the others.
  - The store's guarantee that version and marker listings are non-empty is stated as a subset type. That guarantee is what the source relies on at `versions.back()` and `assert(!keys.empty())`.
- The `node_id` configuration lookup is not modelled; the node id is a constant field. Logging (`vlog`) is not modelled.
- `sequenced_write` is declared in `seq_writer.h`, which is not part of this model. The call sites show only that it takes a `do_write` body that returns None to ask for a retry. The loop is modelled bounded by a finite sequence of attempts.
- Writes.Round: assumes that `sequenced_write` runs `read_sync` before every attempt, and predicts `write_at` as the cursor plus one. Neither is visible in seq_writer.cc; both belong to `seq_writer.h`. A driver that does not re-sync before a retry is not modelled.
- Writes.Retry: running out of attempts returns `RetriesExhausted`, an error the source does not have.
- Sequencer.SeqWriter.WaitFor: assumes that folding a fetched record through `consume_to_store` also advances the cursor to that record. `consume_to_store` is not part of this model, and seq_writer.cc:25 notes that this hook is still to be done. Without it, the cursor after wait_for would stay where it was.
- InternalTopic.Topic.Produce: a produce that returns an error code appends none of our batch. Kafka can report an error for a batch it did write, for example a timeout after replication; such a batch is not modelled. The claims that "only other writers' records land" on a produce error rest on this choice. These are `Tombstones.PermanentDeleteFailures`, `Tombstones.TombstonesRejected` and `Writes.TryWriteOutcome`.
- Offsets are unbounded integers. The 64-bit width of `model::offset` is not modelled.

## Findings

| source | as written | input that shows it | evidently intended | confidence | as-written member | corrected member |
|---|---|---|---|---|---|---|
| src/v/pandaproxy/schema_registry/seq_writer.cc:391-407 | The tombstones are replayed from base_offset, and the cursor advances to each offset, without first folding the records between `_loaded_offset` and base_offset. | The cursor is at 0, with one record in the log. Another node's record lands at offset 1 and the single tombstone at offset 2. The cursor ends at 2 while offset 1 is never folded, and a later wait_for starts at 3. | Catch up to base_offset - 1 (a wait_for) before replaying, so the store stays exactly the log's prefix up to the cursor. | medium, not executed | Tombstones.AsWrittenSkipsInterleaved | Tombstones.PermanentDeleteReplaysConsecutively |
