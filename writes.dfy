/** The predicted-offset writes: the land check of produce_and_check, the
    no-op check and record each of the four do_write bodies builds, one
    attempt of a write against the abstract state, and the retry driver that
    repeats attempts while they report a conflict. */
module Writes {
  import opened RegistryTypes
  import opened InternalTopic
  import opened Replay

  /** produce_and_check's verdict on a produce reply: an error code throws,
      otherwise the write landed iff its base offset is the predicted one. */
  function LandCheck(writeAt: Offset, res: ProduceResponse): (r: Result<bool>)
    ensures r.Failure? <==> res.errorCode != NoError
    ensures r.Failure? ==> r.error == KafkaException(res.errorCode)
    ensures r.Success? ==> (r.value <==> res.baseOffset == writeAt)
  {
    if res.errorCode != NoError then Failure(KafkaException(res.errorCode))
    else Success(res.baseOffset == writeAt)
  }

  /** What a do_write body decides before any I/O: fail with a store error,
      finish without writing (the no-op case), or append `entry` and, once it
      lands, return `outcome`. */
  datatype WritePlan =
    | Failed(error: Error)
    | Done(outcome: Outcome)
    | Append(entry: Entry, outcome: Outcome)

  /** write_subject_version: a no-op exactly when the projection reports the
      schema already present; either way the caller gets the projected id. */
  function PlanWriteSubjectVersion(projected: Projection, sub: Subject, definition: SchemaDefinition,
                                   schemaType: SchemaType, writeAt: Offset, node: NodeId): (p: WritePlan)
    ensures p.Done? <==> !projected.inserted
    ensures !p.Failed? && p.outcome == SchemaIdOutcome(projected.id)
    ensures p.Append? ==>
      p.entry.key == SchemaKey(writeAt, node, sub, projected.version) &&
      p.entry.value == Some(SchemaValue(sub, projected.version, schemaType, projected.id, definition, false))
  {
    if !projected.inserted then Done(SchemaIdOutcome(projected.id))
    else
      var key := SchemaKey(writeAt, node, sub, projected.version);
      var value := SchemaValue(sub, projected.version, schemaType, projected.id, definition, false);
      Append(Entry(key, Some(value)), SchemaIdOutcome(projected.id))
  }

  /** write_config: a no-op returning false exactly when the effective level
      (the subject's, or the global one) already is the requested one;
      otherwise a config record for the same scope, returning true. */
  function PlanWriteConfig(existing: CompatibilityLevel, scope: Option<Subject>, compat: CompatibilityLevel,
                           writeAt: Offset, node: NodeId): (p: WritePlan)
    ensures p.Done? <==> existing == compat
    ensures !p.Failed? && p.outcome == Written(!p.Done?)
    ensures p.Append? ==> p.entry == Entry(ConfigKey(writeAt, node, scope), Some(ConfigValue(compat)))
  {
    if existing == compat then Done(Written(false))
    else Append(Entry(ConfigKey(writeAt, node, scope), Some(ConfigValue(compat))), Written(true))
  }

  /** delete_subject_version: never a no-op; the store's error when the
      version cannot be read, otherwise the version's schema record again,
      unchanged except that it is marked deleted. */
  function PlanDeleteSubjectVersion(found: Result<SubjectSchema>, sub: Subject, version: SchemaVersion,
                                    writeAt: Offset, node: NodeId): (p: WritePlan)
    ensures !p.Done?
    ensures p.Failed? <==> found.Failure?
    ensures p.Failed? ==> p.error == found.error
    ensures p.Append? ==>
      p.outcome == Written(true) &&
      p.entry.key == SchemaKey(writeAt, node, sub, version) &&
      p.entry.value == Some(SchemaValue(sub, version, found.value.schemaType, found.value.id,
                                        found.value.definition, true))
  {
    match found
    case Failure(e) => Failed(e)
    case Success(ss) =>
      var key := SchemaKey(writeAt, node, sub, version);
      var value := SchemaValue(sub, version, ss.schemaType, ss.id, ss.definition, true);
      Append(Entry(key, Some(value)), Written(true))
  }

  /** delete_subject_impermanent: reads the versions first (failing with the
      store's error), then returns them unchanged, without writing, when the
      subject is already deleted; otherwise writes a delete-subject record
      carrying the last version and returns the same list. */
  function PlanDeleteSubjectImpermanent(versions: Result<VersionList>, deleted: Result<bool>,
                                        sub: Subject, writeAt: Offset, node: NodeId): (p: WritePlan)
    ensures p.Failed? <==> versions.Failure? || deleted.Failure?
    ensures versions.Failure? ==> p == Failed(versions.error)
    ensures versions.Success? && deleted.Failure? ==> p == Failed(deleted.error)
    ensures p.Done? <==> versions.Success? && deleted == Success(true)
    ensures !p.Failed? ==> p.outcome == Versions(versions.value)
    ensures p.Append? ==>
      p.entry == Entry(DeleteSubjectKey(writeAt, node, sub),
                       Some(DeleteSubjectValue(sub, versions.value[|versions.value| - 1])))
  {
    match versions
    case Failure(e) => Failed(e)
    case Success(vs) =>
      match deleted
      case Failure(e) => Failed(e)
      case Success(isDeleted) =>
        if isDeleted then Done(Versions(vs))
        else
          var key := DeleteSubjectKey(writeAt, node, sub);
          Append(Entry(key, Some(DeleteSubjectValue(sub, vs[|vs| - 1]))), Versions(vs))
  }

  /** The kind of result each write returns to its caller. */
  predicate OutcomeFits(op: Op, outcome: Outcome) {
    match op
    case WriteSubjectVersion(_, _, _) => outcome.SchemaIdOutcome?
    case WriteConfig(_, _) => outcome.Written?
    case DeleteSubjectVersion(_, _) => outcome == Written(true)
    case DeleteSubjectImpermanent(_) => outcome.Versions?
  }

  /** The do_write body of `op`, with the store's answers read from `store`.
      Whatever it appends is keyed by the predicted offset and this node, and
      carries a value (these writes never tombstone). */
  function PlanFor(op: Op, q: StoreQueries, store: seq<Applied>, writeAt: Offset, node: NodeId): (p: WritePlan)
    ensures p.Append? ==> p.entry.key.seqOffset == writeAt && p.entry.key.node == node && p.entry.value.Some?
    ensures !p.Failed? ==> OutcomeFits(op, p.outcome)
  {
    match op
    case WriteSubjectVersion(sub, definition, schemaType) =>
      PlanWriteSubjectVersion(q.projectIds(store, sub, definition, schemaType), sub, definition, schemaType, writeAt, node)
    case WriteConfig(scope, compat) =>
      PlanWriteConfig(q.getCompatibility(store, scope), scope, compat, writeAt, node)
    case DeleteSubjectVersion(sub, version) =>
      PlanDeleteSubjectVersion(q.getSubjectSchema(store, sub, version), sub, version, writeAt, node)
    case DeleteSubjectImpermanent(sub) =>
      PlanDeleteSubjectImpermanent(q.getVersions(store, sub), q.isSubjectDeleted(store, sub), sub, writeAt, node)
  }

  /** One attempt of a predicted-offset write at `writeAt`, the offset after
      the cursor: the state it leaves and what it returns (None: the record
      landed elsewhere, retry). The store stays caught up and only grows;
      TryWriteOutcome says what each case does. */
  function TryWriteSpec(s: State, q: StoreQueries, node: NodeId, op: Op, writeAt: Offset,
                        interleaved: seq<Entry>, produceError: ErrorCode): (r: (State, Result<Option<Outcome>>))
    requires CaughtUp(s) && writeAt == s.loaded + 1
    ensures CaughtUp(r.0)
    ensures s.log <= r.0.log && s.store <= r.0.store && s.loaded <= r.0.loaded
  {
    var p := PlanFor(op, q, s.store, writeAt, node);
    match p
    case Failed(e) => (s, Failure(e))
    case Done(v) => (s, Success(Some(v)))
    case Append(entry, v) =>
      var log := AfterProduce(s.log, [entry], interleaved, produceError);
      CaughtUpOnLongerLog(s, log);
      match LandCheck(writeAt, ProduceReply(s.log, interleaved, produceError))
      case Failure(e) => (State(log, s.store, s.loaded), Failure(e))
      case Success(landed) =>
        if landed then
          FoldNext(State(log, s.store, s.loaded));
          (State(log, s.store + [Applied(writeAt, entry)], Advance(s.loaded, writeAt)), Success(Some(v)))
        else (State(log, s.store, s.loaded), Success(None))
  }

  /** What one attempt does:
      - a store error or a no-op changes nothing;
      - otherwise the record is produced; an error code throws, leaving the
        store and cursor as they were;
      - the record lands at the prediction exactly when no other writer's
        record got there first and the cursor was at the end of the log; then
        it is folded at `writeAt` and the cursor moves to it;
      - a mismatch folds nothing, leaves the cursor and asks for a retry. */
  lemma TryWriteOutcome(s: State, q: StoreQueries, node: NodeId, op: Op, writeAt: Offset,
                        interleaved: seq<Entry>, produceError: ErrorCode)
    requires CaughtUp(s) && writeAt == s.loaded + 1
    ensures var p := PlanFor(op, q, s.store, writeAt, node);
      var r := TryWriteSpec(s, q, node, op, writeAt, interleaved, produceError);
      && (p.Failed? ==> r == (s, Failure(p.error)))
      && (p.Done? ==> r == (s, Success(Some(p.outcome))))
      && (p.Append? ==>
            && r.0.log == AfterProduce(s.log, [p.entry], interleaved, produceError)
            && (produceError != NoError ==> r.1 == Failure(KafkaException(produceError)))
            && (r.1 == Success(Some(p.outcome)) <==>
                  produceError == NoError && interleaved == [] && |s.log| == writeAt)
            && (r.1 == Success(Some(p.outcome)) ==>
                  r.0.log[writeAt] == p.entry && r.0.loaded == writeAt &&
                  r.0.store == s.store + [Applied(writeAt, p.entry)])
            && (r.1 != Success(Some(p.outcome)) ==> r.0.store == s.store && r.0.loaded == s.loaded)
            && (produceError == NoError && r.1 != Success(Some(p.outcome)) ==> r.1 == Success(None)))
  {
    var p := PlanFor(op, q, s.store, writeAt, node);
    if p.Append? {
      TryWriteAppends(s, q, node, op, writeAt, interleaved, produceError);
      var log := AfterProduce(s.log, [p.entry], interleaved, produceError);
      if produceError == NoError {
        assert log == s.log + interleaved + [p.entry];
        assert |log| == |s.log| + |interleaved| + 1;
      }
    }
  }

  /** One attempt whose do_write body settles before any I/O: a store error
      or a no-op, leaving the state as it was. */
  lemma TryWriteSettlesEarly(s: State, q: StoreQueries, node: NodeId, op: Op, writeAt: Offset,
                             interleaved: seq<Entry>, produceError: ErrorCode)
    requires CaughtUp(s) && writeAt == s.loaded + 1
    requires !PlanFor(op, q, s.store, writeAt, node).Append?
    ensures var p := PlanFor(op, q, s.store, writeAt, node);
      TryWriteSpec(s, q, node, op, writeAt, interleaved, produceError)
        == (s, if p.Failed? then Failure(p.error) else Success(Some(p.outcome)))
  {
  }

  /** One attempt that reaches the produce: its result is decided by
      produce_and_check's verdict alone. */
  lemma TryWriteAppends(s: State, q: StoreQueries, node: NodeId, op: Op, writeAt: Offset,
                        interleaved: seq<Entry>, produceError: ErrorCode)
    requires CaughtUp(s) && writeAt == s.loaded + 1
    requires PlanFor(op, q, s.store, writeAt, node).Append?
    ensures var p := PlanFor(op, q, s.store, writeAt, node);
      var log := AfterProduce(s.log, [p.entry], interleaved, produceError);
      var verdict := LandCheck(writeAt, ProduceReply(s.log, interleaved, produceError));
      var r := TryWriteSpec(s, q, node, op, writeAt, interleaved, produceError);
      && (verdict.Failure? ==> r == (State(log, s.store, s.loaded), Failure(verdict.error)))
      && (verdict == Success(true) ==>
            r == (State(log, s.store + [Applied(writeAt, p.entry)], Advance(s.loaded, writeAt)), Success(Some(p.outcome))))
      && (verdict == Success(false) ==> r == (State(log, s.store, s.loaded), Success(None)))
  {
  }

  /** One round of the retry driver: read_sync brings the cursor up to the
      end offset the log reports, then the write is attempted at the offset
      after the cursor. */
  function Round(s: State, q: StoreQueries, node: NodeId, op: Op, a: Attempt): (r: (State, Result<Option<Outcome>>))
    requires CaughtUp(s)
    ensures CaughtUp(r.0)
    ensures s.log <= r.0.log && s.store <= r.0.store && s.loaded <= r.0.loaded
    ensures r.1.Success? && r.1.value.Some? ==> OutcomeFits(op, r.1.value.value)
  {
    match ReadSyncTarget(a.offsets)
    case Failure(e) => (s, Failure(e))
    case Success(target) =>
      var synced := CatchUp(s, target);
      TryWriteOutcome(synced, q, node, op, synced.loaded + 1, a.interleaved, a.produceError);
      TryWriteSpec(synced, q, node, op, synced.loaded + 1, a.interleaved, a.produceError)
  }

  /** A round whose list_offsets reply is refused ends with that error and
      changes nothing. */
  lemma RoundRefused(s: State, q: StoreQueries, node: NodeId, op: Op, a: Attempt)
    requires CaughtUp(s) && ReadSyncTarget(a.offsets).Failure?
    ensures Round(s, q, node, op, a) == (s, Failure(ReadSyncTarget(a.offsets).error))
  {
  }

  /** A round whose list_offsets reply is accepted catches up to the reported
      end and writes at the offset after the cursor. */
  lemma RoundSynced(s: State, q: StoreQueries, node: NodeId, op: Op, a: Attempt)
    requires CaughtUp(s) && ReadSyncTarget(a.offsets).Success?
    ensures var synced := CatchUp(s, ReadSyncTarget(a.offsets).value);
      Round(s, q, node, op, a) == TryWriteSpec(synced, q, node, op, synced.loaded + 1, a.interleaved, a.produceError)
  {
  }

  /** The retry driver: rounds run while they report a conflict (None);
      errors and results stop at once. Running out of attempts is reported as
      RetriesExhausted. The store stays caught up throughout, and only ever
      grows. */
  function Retry(s: State, q: StoreQueries, node: NodeId, op: Op, attempts: seq<Attempt>): (r: (State, Result<Outcome>))
    requires CaughtUp(s)
    ensures CaughtUp(r.0)
    ensures s.log <= r.0.log && s.store <= r.0.store && s.loaded <= r.0.loaded
    ensures r.1.Success? ==> OutcomeFits(op, r.1.value)
    ensures attempts == [] ==> r == (s, Failure(RetriesExhausted))
    decreases |attempts|
  {
    if attempts == [] then (s, Failure(RetriesExhausted))
    else
      var (next, res) := Round(s, q, node, op, attempts[0]);
      match res
      case Failure(e) => (next, Failure(e))
      case Success(Some(v)) => (next, Success(v))
      case Success(None) => Retry(next, q, node, op, attempts[1..])
  }

  /** One round of the retry driver, spelled out: an error or a result ends
      it, and only a conflict goes on to the remaining attempts. */
  lemma RetryStep(s: State, q: StoreQueries, node: NodeId, op: Op, attempts: seq<Attempt>)
    requires CaughtUp(s) && attempts != []
    ensures var t := Round(s, q, node, op, attempts[0]);
      && (t.1.Failure? ==> Retry(s, q, node, op, attempts) == (t.0, Failure(t.1.error)))
      && (t.1.Success? && t.1.value.Some? ==> Retry(s, q, node, op, attempts) == (t.0, Success(t.1.value.value)))
      && (t.1 == Success(None) ==> Retry(s, q, node, op, attempts) == Retry(t.0, q, node, op, attempts[1..]))
  {
  }

  /** A list_offsets reply that reports the log's true end offset without error. */
  predicate Healthy(resp: ListOffsetsResponse, log: seq<Entry>) {
    resp == ListOffsetsResponse([TopicOffsets([PartitionOffset(NoError, |log|)])])
  }

  /** Without contention the first attempt settles the write: after read_sync
      the cursor is at the log's end, the prediction is the log length, and
      with nothing interleaved the record lands there (or the write is a no-op). */
  lemma FirstAttemptSettlesUncontended(s: State, q: StoreQueries, node: NodeId, op: Op, attempts: seq<Attempt>)
    requires CaughtUp(s) && |attempts| > 0
    requires Healthy(attempts[0].offsets, s.log)
    requires attempts[0].interleaved == [] && attempts[0].produceError == NoError
    requires !PlanFor(op, q, Folded(s.log, |s.log|), |s.log|, node).Failed?
    ensures Retry(s, q, node, op, attempts).1.Success?
    ensures Retry(s, q, node, op, attempts).0.loaded == |Retry(s, q, node, op, attempts).0.log| - 1
  {
    var synced := CatchUp(s, |s.log| - 1);
    assert synced.loaded == |s.log| - 1;
    assert synced.store == Folded(s.log, |s.log|);
    assert ReadSyncTarget(attempts[0].offsets) == Success(|s.log| - 1);
    assert Round(s, q, node, op, attempts[0]) == TryWriteSpec(synced, q, node, op, |s.log|, [], NoError);
    TryWriteOutcome(synced, q, node, op, |s.log|, [], NoError);
    RetryStep(s, q, node, op, attempts);
  }

  /** A record of another writer that lands first is always detected: the
      attempt folds nothing, leaves the cursor, and asks for a retry. */
  lemma ContendedAttemptAppliesNothing(s: State, q: StoreQueries, node: NodeId, op: Op,
                                       interleaved: seq<Entry>)
    requires CaughtUp(s) && interleaved != []
    requires PlanFor(op, q, s.store, s.loaded + 1, node).Append?
    ensures var r := TryWriteSpec(s, q, node, op, s.loaded + 1, interleaved, NoError);
      r.1 == Success(None) && r.0.store == s.store && r.0.loaded == s.loaded
  {
    TryWriteOutcome(s, q, node, op, s.loaded + 1, interleaved, NoError);
    var r := TryWriteSpec(s, q, node, op, s.loaded + 1, interleaved, NoError);
    var p := PlanFor(op, q, s.store, s.loaded + 1, node);
    assert r.1.Success? && r.1 != Success(Some(p.outcome));
    assert OutcomeFits(op, p.outcome);
  }
}
