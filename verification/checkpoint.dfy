/** The agent's checkpoint file (internal/tailer/checkpoint.go). */
module CheckpointFile {
  import opened Model
  import opened Offsets
  import opened Wire

  /** A stored value counts only when it is eight bytes long. */
  function Stored(bucket: map<string, seq<byte>>, key: string): Option<int> {
    if key in bucket && |bucket[key]| == 8 then Some(Signed64(Word(bucket[key]))) else None
  }

  class Checkpoint {
    var bucket: map<string, seq<byte>>

    constructor ()
      ensures bucket == map[]
    {
      bucket := map[];
    }

    /** The offset of a source, zero when there is none. */
    method Get(key: string) returns (off: int)
      ensures off == match Stored(bucket, key) case None => 0 case Some(v) => v
    {
      off := 0;
      if key in bucket && |bucket[key]| == 8 {
        off := Signed64(Word(bucket[key]));
      }
    }

    /** Moves a source's offset forward, never back. */
    method Advance(key: string, offset: int)
      requires InInt64(offset)
      modifies this
      ensures Stored(bucket, key) == match Stored(old(bucket), key)
                                     case None => Some(offset)
                                     case Some(cur) => Some(if cur >= offset then cur else offset)
      ensures forall k :: k != key ==> Stored(bucket, k) == Stored(old(bucket), k)
    {
      if key in bucket && |bucket[key]| == 8 {
        var cur := Signed64(Word(bucket[key]));
        if cur >= offset {
          return;
        }
      }
      Word64(offset);
      WrapIff(offset);
      bucket := bucket[key := BigEndian(Unsigned64(offset), 8)];
    }

    /** Applies an ack: every source it names moves forward. */
    method Commit(ack: map<string, int>)
      requires forall k :: k in ack ==> 0 <= ack[k] < TWO_63
      requires Nonnegative(bucket)
      modifies this
      ensures Nonnegative(bucket)
      ensures forall k :: OffsetOf(bucket, k) == At(MergeMax(Marks(old(bucket)), ack), k)
    {
      hide MergeMax, Stored, Nonnegative, CommittedBut, InInt64;
      ghost var before := bucket;
      NothingCommitted(before, ack);
      var todo := ack.Keys;
      while todo != {}
        invariant todo <= ack.Keys && Nonnegative(bucket) && CommittedBut(before, ack, todo, bucket)
        decreases todo
      {
        var k :| k in todo;
        ghost var was := bucket;
        FitsInt64(ack[k]);
        Advance(k, ack[k]);
        OneCommitted(before, ack, todo, was, k, bucket);
        todo := todo - {k};
      }
      AllCommitted(before, ack, bucket);
    }
  }

  /** The acked offsets are stored, but for those still to do. */
  ghost predicate CommittedBut(before: map<string, seq<byte>>, ack: map<string, int>, todo: set<string>, now: map<string, seq<byte>>) {
    forall k ::
      OffsetOf(now, k) == if k in ack && k !in todo && ack[k] > OffsetOf(before, k) then ack[k] else OffsetOf(before, k)
  }

  lemma NothingCommitted(before: map<string, seq<byte>>, ack: map<string, int>)
    ensures CommittedBut(before, ack, ack.Keys, before)
  {
  }

  lemma FitsInt64(x: int)
    requires 0 <= x < TWO_63
    ensures InInt64(x)
  {
  }

  lemma OneCommitted(before: map<string, seq<byte>>, ack: map<string, int>, todo: set<string>,
    was: map<string, seq<byte>>, key: string, now: map<string, seq<byte>>)
    requires CommittedBut(before, ack, todo, was) && key in todo && key in ack && ack[key] >= 0 && Nonnegative(was)
    requires Stored(now, key) == match Stored(was, key)
                                 case None => Some(ack[key])
                                 case Some(cur) => Some(if cur >= ack[key] then cur else ack[key])
    requires forall k :: k != key ==> Stored(now, k) == Stored(was, k)
    ensures CommittedBut(before, ack, todo - {key}, now) && Nonnegative(now)
  {
    hide Stored;
    assert OffsetOf(was, key) == OffsetOf(before, key);
    forall k | k in now ensures OffsetOf(now, k) >= 0 {
      if k != key { assert OffsetOf(now, k) == OffsetOf(was, k); StoredOnly(was, k); }
    }
  }

  lemma StoredOnly(bucket: map<string, seq<byte>>, k: string)
    requires Nonnegative(bucket)
    ensures OffsetOf(bucket, k) >= 0
  {
  }

  lemma AllCommitted(before: map<string, seq<byte>>, ack: map<string, int>, now: map<string, seq<byte>>)
    requires CommittedBut(before, ack, {}, now) && forall k :: k in ack ==> ack[k] >= 0
    requires Nonnegative(before)
    ensures forall k :: OffsetOf(now, k) == At(MergeMax(Marks(before), ack), k)
  {
    hide MergeMax;
    forall k ensures OffsetOf(now, k) == At(MergeMax(Marks(before), ack), k) {
      MergeMaxAt(Marks(before), ack, k);
    }
  }

  function OffsetOf(bucket: map<string, seq<byte>>, key: string): int {
    match Stored(bucket, key) case None => 0 case Some(v) => v
  }

  predicate Nonnegative(bucket: map<string, seq<byte>>) {
    forall k :: k in bucket ==> OffsetOf(bucket, k) >= 0
  }

  /** The offsets in the file. */
  function Marks(bucket: map<string, seq<byte>>): map<string, int> {
    map k | k in bucket && Stored(bucket, k).Some? :: Stored(bucket, k).value
  }
}
