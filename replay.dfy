/** The cursor and the catch-up reader: what it means for the store to be
    caught up with the log, how the cursor advances, and what `wait_for` and
    `read_sync` do to the abstract state. */
module Replay {
  import opened RegistryTypes

  /** The abstract state of one owner: the internal topic's log, the records
      folded into the store in the order they were applied, and the cursor
      (`_loaded_offset`). */
  datatype State = State(log: seq<Entry>, store: seq<Applied>, loaded: Offset)

  /** The first `n` records of the log, each tagged with its offset: what a
      store holds once it has folded offsets 0 .. n-1 in order. */
  function Folded(log: seq<Entry>, n: nat): (r: seq<Applied>)
    requires n <= |log|
    ensures |r| == n
    ensures forall i :: 0 <= i < n ==> r[i] == Applied(i, log[i])
  {
    if n == 0 then [] else Folded(log, n - 1) + [Applied(n - 1, log[n - 1])]
  }

  /** The store has folded exactly the log's records up to and including the
      cursor, each once and in offset order, and the cursor is within the log
      (-1 is the cursor of a store that has loaded nothing). */
  predicate CaughtUp(s: State) {
    -1 <= s.loaded < |s.log| && s.store == Folded(s.log, s.loaded + 1)
  }

  /** advance_offset_inner: the cursor moves to `offset` only when that is ahead of it. */
  function Advance(cursor: Offset, offset: Offset): (r: Offset)
    ensures cursor <= r && offset <= r
    ensures r == cursor || r == offset
  {
    if cursor < offset then offset else cursor
  }

  function Min(a: int, b: int): int {
    if a <= b then a else b
  }

  /** A half-open range of offsets [from, to) requested from the log. */
  datatype Range = Range(from: Offset, to: Offset)

  /** The range wait_for fetches: nothing when the target is not ahead of the
      cursor, otherwise everything after the cursor up to and including the target. */
  function CatchUpRange(loaded: Offset, target: Offset): (r: Option<Range>)
    ensures r.None? <==> target <= loaded
    ensures r.Some? ==> r.value.from == loaded + 1 && r.value.to == target + 1 && r.value.from < r.value.to
  {
    if target > loaded then Some(Range(loaded + 1, target + 1)) else None
  }

  /** The records of the log at offsets [from, to), each tagged with its
      offset: what a fetch of that range yields, in order. */
  function FoldRange(log: seq<Entry>, from: nat, to: nat): (r: seq<Applied>)
    requires from <= to <= |log|
    ensures |r| == to - from
    ensures forall i :: 0 <= i < |r| ==> r[i] == Applied(from + i, log[from + i])
  {
    seq(to - from, i requires 0 <= i < to - from => Applied(from + i, log[from + i]))
  }

  /** Fetching one more record appends it, at its own offset. */
  lemma FoldRangeExtend(log: seq<Entry>, from: nat, to: nat)
    requires from <= to < |log|
    ensures FoldRange(log, from, to + 1) == FoldRange(log, from, to) + [Applied(to, log[to])]
  {
  }

  /** The state after wait_for(target): every record of the requested range
      that exists is folded and the cursor follows it. A range reaching past
      the end of the log yields only the records the log has. */
  function CatchUp(s: State, target: Offset): (t: State)
    requires CaughtUp(s)
    ensures CaughtUp(t) && t.log == s.log
    ensures t.loaded == Advance(s.loaded, Min(target, |s.log| - 1))
    ensures s.store <= t.store
  {
    var upTo := Advance(s.loaded, Min(target, |s.log| - 1));
    State(s.log, Folded(s.log, upTo + 1), upTo)
  }

  /** What read_sync makes of the list_offsets reply: it demands exactly one
      topic with exactly one partition, fails with that partition's error
      code when it is not none, and otherwise waits for the offset before the
      end offset, the last record in the log. */
  function ReadSyncTarget(resp: ListOffsetsResponse): (r: Result<Offset>)
    ensures r.Success? <==>
      |resp.topics| == 1 && |resp.topics[0].partitions| == 1 &&
      resp.topics[0].partitions[0].errorCode == NoError
    ensures r.Success? ==> r.value == resp.topics[0].partitions[0].offset - 1
    ensures !(|resp.topics| == 1 && |resp.topics[0].partitions| == 1) ==>
      r == Failure(KafkaException(UnknownTopicOrPartition))
    ensures (|resp.topics| == 1 && |resp.topics[0].partitions| == 1 &&
             resp.topics[0].partitions[0].errorCode != NoError) ==>
      r == Failure(KafkaException(resp.topics[0].partitions[0].errorCode))
  {
    var topics := resp.topics;
    if |topics| != 1 || |topics[0].partitions| != 1 then
      Failure(KafkaException(UnknownTopicOrPartition))
    else
      var partition := topics[0].partitions[0];
      if partition.errorCode != NoError then Failure(KafkaException(partition.errorCode))
      else Success(partition.offset - 1)
  }

  /** Folding a prefix does not depend on what the log holds after it. */
  lemma FoldedPrefix(log: seq<Entry>, longer: seq<Entry>, n: nat)
    requires n <= |log| && log <= longer
    ensures Folded(longer, n) == Folded(log, n)
  {
    assert forall i :: 0 <= i < n ==> Folded(longer, n)[i] == Folded(log, n)[i];
  }

  /** Records appended to the log by anyone leave a caught-up store caught up:
      the cursor simply has more ahead of it. */
  lemma CaughtUpOnLongerLog(s: State, longer: seq<Entry>)
    requires CaughtUp(s) && s.log <= longer
    ensures CaughtUp(State(longer, s.store, s.loaded))
  {
    FoldedPrefix(s.log, longer, s.loaded + 1);
  }

  /** Folding the record right after the cursor and advancing to it keeps the
      store caught up. */
  lemma FoldNext(s: State)
    requires CaughtUp(s) && s.loaded + 1 < |s.log|
    ensures CaughtUp(State(s.log, s.store + [Applied(s.loaded + 1, s.log[s.loaded + 1])], Advance(s.loaded, s.loaded + 1)))
  {
  }

  /** wait_for on a target ahead of the cursor folds exactly the records of
      the fetched range that the log has, in offset order after the old
      store, and leaves the cursor on the last of them. */
  lemma CatchUpFoldsRange(s: State, target: Offset)
    requires CaughtUp(s) && CatchUpRange(s.loaded, target).Some?
    ensures var rg := CatchUpRange(s.loaded, target).value;
      && 0 <= rg.from <= Min(rg.to, |s.log|) <= |s.log|
      && CatchUp(s, target).store == s.store + FoldRange(s.log, rg.from, Min(rg.to, |s.log|))
      && CatchUp(s, target).loaded == Min(rg.to, |s.log|) - 1
  {
    var rg := CatchUpRange(s.loaded, target).value;
    var t := CatchUp(s, target);
    var fetched := FoldRange(s.log, rg.from, Min(rg.to, |s.log|));
    forall i | 0 <= i < |t.store|
      ensures t.store[i] == (s.store + fetched)[i]
    {
    }
  }

  /** wait_for on a target the cursor has reached fetches nothing and changes nothing. */
  lemma CatchUpCleanIsNoOp(s: State, target: Offset)
    requires CaughtUp(s) && target <= s.loaded
    ensures CatchUpRange(s.loaded, target) == None
    ensures CatchUp(s, target) == s
  {
  }

  /** wait_for(x) followed by wait_for(y) with y <= x changes nothing the
      second time, and when x is within the log the second call fetches nothing. */
  lemma CatchUpTwice(s: State, x: Offset, y: Offset)
    requires CaughtUp(s) && y <= x
    ensures CatchUp(CatchUp(s, x), y) == CatchUp(s, x)
    ensures x < |s.log| ==> CatchUpRange(CatchUp(s, x).loaded, y) == None
  {
  }

  /** Applying advance_offset_inner to each offset in turn. */
  function AdvanceAll(cursor: Offset, offsets: seq<Offset>): Offset
    decreases |offsets|
  {
    if offsets == [] then cursor else AdvanceAll(Advance(cursor, offsets[0]), offsets[1..])
  }

  /** After a series of advances the cursor is the largest of its old value
      and the offsets. */
  lemma {:induction false} AdvanceAllIsMax(cursor: Offset, offsets: seq<Offset>)
    ensures cursor <= AdvanceAll(cursor, offsets)
    ensures forall o :: o in offsets ==> o <= AdvanceAll(cursor, offsets)
    ensures AdvanceAll(cursor, offsets) == cursor || AdvanceAll(cursor, offsets) in offsets
    decreases |offsets|
  {
    if offsets != [] {
      AdvanceAllIsMax(Advance(cursor, offsets[0]), offsets[1..]);
      assert offsets == [offsets[0]] + offsets[1..];
    }
  }

  /** Advances commute and may be repeated: the cursor ends the same whatever
      the order the offsets arrive in, and replaying them again changes nothing. */
  lemma AdvanceAllOrderFree(cursor: Offset, xs: seq<Offset>, ys: seq<Offset>)
    requires multiset(xs) == multiset(ys)
    ensures AdvanceAll(cursor, xs) == AdvanceAll(cursor, ys)
    ensures AdvanceAll(AdvanceAll(cursor, xs), xs) == AdvanceAll(cursor, xs)
  {
    AdvanceAllIsMax(cursor, xs);
    AdvanceAllIsMax(cursor, ys);
    AdvanceAllIsMax(AdvanceAll(cursor, xs), xs);
    assert forall o :: o in xs <==> o in multiset(xs);
    assert forall o :: o in ys <==> o in multiset(ys);
  }
}
