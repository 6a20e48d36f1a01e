/** The schema registry's internal topic, as far as the sequenced writer sees
    it: an append-only log whose offsets are positions in `entries`. Other
    writers (other nodes, other processes) append too; their records are an
    input of each produce, landing ahead of ours. */
module InternalTopic {
  import opened RegistryTypes

  /** The log after producing `batch` when the records `interleaved` of other
      writers land first; a failed produce lands only theirs. */
  function AfterProduce(log: seq<Entry>, batch: seq<Entry>, interleaved: seq<Entry>, errorCode: ErrorCode): (r: seq<Entry>)
    ensures log + interleaved <= r
    ensures errorCode == NoError ==> r[|log| + |interleaved|..] == batch
    ensures errorCode != NoError ==> |r| == |log| + |interleaved|
  {
    if errorCode == NoError then log + interleaved + batch else log + interleaved
  }

  /** The produce reply: on success the base offset is the log length at the
      moment the batch is appended, after the interleaved records. */
  function ProduceReply(log: seq<Entry>, interleaved: seq<Entry>, errorCode: ErrorCode): (res: ProduceResponse)
    ensures res.errorCode == errorCode
    ensures errorCode == NoError ==> res.baseOffset == |log| + |interleaved|
  {
    ProduceResponse(errorCode, if errorCode == NoError then |log| + |interleaved| else -1)
  }

  class Topic {
    var entries: seq<Entry>

    constructor (initial: seq<Entry>)
      ensures entries == initial
    {
      entries := initial;
    }

    /** produce_record_batch against the internal topic partition. */
    method Produce(batch: seq<Entry>, interleaved: seq<Entry>, errorCode: ErrorCode) returns (res: ProduceResponse)
      modifies this
      ensures entries == AfterProduce(old(entries), batch, interleaved, errorCode)
      ensures res == ProduceReply(old(entries), interleaved, errorCode)
    {
      res := ProduceReply(entries, interleaved, errorCode);
      entries := AfterProduce(entries, batch, interleaved, errorCode);
    }
  }
}
