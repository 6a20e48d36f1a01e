/** Values the schema registry's sequenced writer works with: the keys and
    values it writes to the internal topic, the seq markers kept for each
    written entity, the Kafka responses it inspects, and the read operations
    of the materialized store. */
module RegistryTypes {

  datatype Option<+T> = None | Some(value: T)

  /** Kafka protocol error codes; only the two this core names are spelled out. */
  type ErrorCode = int
  const NoError: ErrorCode := 0
  const UnknownTopicOrPartition: ErrorCode := 3

  datatype Error =
    | KafkaException(code: ErrorCode)   // kafka::exception thrown by the writer
    | RegistryException(code: int)      // whatever a store read throws (not found, ...)
    | RetriesExhausted                  // the bounded retry driver ran out of attempts

  datatype Result<+T> = Success(value: T) | Failure(error: Error)

  type Offset = int
  type NodeId = int
  type Subject = string
  type SchemaDefinition = string
  type SchemaId = int
  type SchemaVersion = int

  datatype SchemaType = Avro | Json | Protobuf

  datatype CompatibilityLevel =
    | CompatNone | Backward | BackwardTransitive | Forward | ForwardTransitive
    | Full | FullTransitive

  /** The kind of key a seq marker points at. */
  datatype KeyType = Schema | DeleteSubject | Config

  /** Keys of the internal topic. `seqOffset` (the key's `seq` field) is the
      offset the writer predicted for the record and `node` the writer's node
      id: provenance, not identity. */
  datatype Key =
    | SchemaKey(seqOffset: Offset, node: NodeId, sub: Subject, version: SchemaVersion)
    | DeleteSubjectKey(seqOffset: Offset, node: NodeId, sub: Subject)
    | ConfigKey(seqOffset: Offset, node: NodeId, scope: Option<Subject>)
  {
    function Kind(): KeyType {
      match this
      case SchemaKey(_, _, _, _) => Schema
      case DeleteSubjectKey(_, _, _) => DeleteSubject
      case ConfigKey(_, _, _) => Config
    }

    /** The subject the key is about; None for the global config key. */
    function SubjectOf(): Option<Subject> {
      match this
      case SchemaKey(_, _, sub, _) => Some(sub)
      case DeleteSubjectKey(_, _, sub) => Some(sub)
      case ConfigKey(_, _, scope) => scope
    }
  }

  datatype Value =
    | SchemaValue(sub: Subject, version: SchemaVersion, schemaType: SchemaType,
                  id: SchemaId, schema: SchemaDefinition, deleted: bool)
    | DeleteSubjectValue(sub: Subject, version: SchemaVersion)
    | ConfigValue(compat: CompatibilityLevel)

  /** A record of the internal topic; a value of None is a tombstone. */
  datatype Entry = Entry(key: Key, value: Option<Value>)

  /** Where an entity was written: the key's seq and node, the version for a
      schema key, and which kind of key it was. */
  datatype SeqMarker = SeqMarker(seqOffset: Offset, node: NodeId, version: SchemaVersion, keyType: KeyType)

  /** One record folded into the store, with the offset it was applied at. */
  datatype Applied = Applied(offset: Offset, entry: Entry)

  /** Result of projecting a schema through the store: `inserted == false`
      means the store already holds it. */
  datatype Projection = Projection(id: SchemaId, version: SchemaVersion, inserted: bool)

  datatype SubjectSchema = SubjectSchema(schemaType: SchemaType, id: SchemaId, definition: SchemaDefinition)

  /** The store answers version and marker listings with non-empty lists or
      throws: the writer takes the last version and asserts it has keys. */
  type VersionList = vs: seq<SchemaVersion> | |vs| > 0 witness [0]
  type MarkerList = ms: seq<SeqMarker> | |ms| > 0 witness [SeqMarker(0, 0, 0, Schema)]

  /** The store's read operations, each a function of the records applied so far. */
  datatype StoreQueries = StoreQueries(
    projectIds: (seq<Applied>, Subject, SchemaDefinition, SchemaType) -> Projection,
    getCompatibility: (seq<Applied>, Option<Subject>) -> CompatibilityLevel,
    getSubjectSchema: (seq<Applied>, Subject, SchemaVersion) -> Result<SubjectSchema>,
    getVersions: (seq<Applied>, Subject) -> Result<VersionList>,
    isSubjectDeleted: (seq<Applied>, Subject) -> Result<bool>,
    writtenAt: (seq<Applied>, Subject, Option<SchemaVersion>) -> Result<MarkerList>)

  /** A list_offsets reply: per topic, per partition an error code and the end offset. */
  datatype PartitionOffset = PartitionOffset(errorCode: ErrorCode, offset: Offset)
  datatype TopicOffsets = TopicOffsets(partitions: seq<PartitionOffset>)
  datatype ListOffsetsResponse = ListOffsetsResponse(topics: seq<TopicOffsets>)

  /** A produce reply: an error code and the offset the batch's first record landed at. */
  datatype ProduceResponse = ProduceResponse(errorCode: ErrorCode, baseOffset: Offset)

  /** The four writes that go through offset prediction. */
  datatype Op =
    | WriteSubjectVersion(sub: Subject, definition: SchemaDefinition, schemaType: SchemaType)
    | WriteConfig(scope: Option<Subject>, compat: CompatibilityLevel)
    | DeleteSubjectVersion(sub: Subject, version: SchemaVersion)
    | DeleteSubjectImpermanent(sub: Subject)

  /** What a write returns to its caller: a schema id, a bool, or a version list. */
  datatype Outcome =
    | SchemaIdOutcome(id: SchemaId)
    | Written(flag: bool)
    | Versions(versions: seq<SchemaVersion>)

  /** What the environment does during one attempt of a sequenced write: the
      list_offsets reply read_sync gets, the records other writers land between
      the prediction and our append, and the produce reply's error code. */
  datatype Attempt = Attempt(offsets: ListOffsetsResponse, interleaved: seq<Entry>, produceError: ErrorCode)
}
