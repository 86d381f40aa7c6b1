/**
  The agent's ingest client (internal/ingest/client.go): the window of unacked
  records, its byte caps, and what each session sends from it.
 */
module IngestClient {
  import opened Model
  import Offsets
  import CheckpointFile
  import Wire

  /** An unacked record; `rawLen` is the length of its encoding. */
  datatype Envelope = Envelope(rec: Record, rawLen: nat, sent: bool)

  datatype Caps = Caps(soft: nat, hard: nat, batchBytes: nat)

  /** The fields of a Client as one value. */
  datatype Window = Window(unacked: seq<Envelope>, heldByte: int, dropped: nat, closed: bool)

  /** How Enqueue returns; Waiting when it has not. */
  datatype Outcome = Queued | Waiting | Canceled | Unencodable

  function HeldLen(es: seq<Envelope>): nat {
    if es == [] then 0 else es[0].rawLen + HeldLen(es[1..])
  }

  /** Whether Enqueue sheds the oldest record to make room. */
  predicate Sheds(w: Window, rawLen: nat, caps: Caps) {
    w.heldByte + rawLen > caps.soft && !w.closed && w.heldByte + rawLen > caps.hard
  }

  function WithoutOldest(w: Window): Window {
    if w.unacked == [] then w
    else w.(unacked := w.unacked[1..], heldByte := w.heldByte - w.unacked[0].rawLen, dropped := w.dropped + 1)
  }

  function EnqueueOutcome(w: Window, rawLen: nat, caps: Caps): Outcome {
    if w.closed then Canceled
    else if w.heldByte + rawLen > caps.soft && w.heldByte + rawLen <= caps.hard then Waiting
    else Queued
  }

  function Enqueued(w: Window, r: Record, rawLen: nat, caps: Caps): Window {
    if EnqueueOutcome(w, rawLen, caps).Queued? then
      var w1 := if Sheds(w, rawLen, caps) then WithoutOldest(w) else w;
      w1.(unacked := w1.unacked + [Envelope(r, rawLen, false)], heldByte := w1.heldByte + rawLen)
    else w
  }

  /** The window once Enqueue need not wait any more, or nothing more happens. */
  function WithRoom(w: Window, rawLen: nat, waits: seq<seq<Event>>, caps: Caps): Window
    decreases |waits|
  {
    if EnqueueOutcome(w, rawLen, caps).Waiting? && waits != []
    then WithRoom(AfterAll(w, waits[0], caps), rawLen, waits[1..], caps)
    else w
  }

  /** The envelope whose offset Enqueue commits because it was shed. */
  function Shed(w: Window, rawLen: nat, caps: Caps): Option<Record> {
    if Sheds(w, rawLen, caps) && w.unacked != [] then Some(w.unacked[0].rec) else None
  }

  /** Start of a session: everything is to be sent again. */
  function Unsent(es: seq<Envelope>): seq<Envelope> {
    seq(|es|, i requires 0 <= i < |es| => es[i].(sent := false))
  }

  /** Positions, from i on, that one pass of flush puts in a batch. */
  function Picked(es: seq<Envelope>, i: nat, nbytes: nat, target: nat): (idx: seq<nat>)
    requires i <= |es|
    ensures forall k :: 0 <= k < |idx| ==> idx[k] < |es|
    decreases |es| - i
  {
    if i == |es| then []
    else if es[i].sent then Picked(es, i + 1, nbytes, target)
    else if nbytes + es[i].rawLen >= target then [i]
    else [i] + Picked(es, i + 1, nbytes + es[i].rawLen, target)
  }

  function Marked(es: seq<Envelope>, idx: seq<nat>): seq<Envelope> {
    seq(|es|, i requires 0 <= i < |es| => if i in idx then es[i].(sent := true) else es[i])
  }

  function RecordsAt(es: seq<Envelope>, idx: seq<nat>): seq<Record>
    requires forall k :: 0 <= k < |idx| ==> idx[k] < |es|
  {
    seq(|idx|, k requires 0 <= k < |idx| => es[idx[k]].rec)
  }

  /** When the sent envelopes are the first lo, the picks are a run from lo. */
  lemma {:induction false} PicksAreRun(es: seq<Envelope>, i: nat, nbytes: nat, target: nat, lo: nat)
    requires i <= |es| && lo <= |es| && forall j :: 0 <= j < |es| ==> es[j].sent == (j < lo)
    ensures
      var idx := Picked(es, i, nbytes, target);
      var from := if i < lo then lo else i;
      && (forall k :: 0 <= k < |idx| ==> idx[k] == from + k)
      && (from < |es| ==> idx != [])
    decreases |es| - i
  {
    if i == |es| {
    } else if es[i].sent {
      PicksAreRun(es, i + 1, nbytes, target, lo);
    } else if nbytes + es[i].rawLen >= target {
    } else {
      PicksAreRun(es, i + 1, nbytes + es[i].rawLen, target, lo);
    }
  }

  predicate IsAcked(e: Envelope, acked: map<string, int>) {
    e.rec.source in acked && e.rec.offset <= acked[e.rec.source]
  }

  function Kept(es: seq<Envelope>, acked: map<string, int>): seq<Envelope> {
    if es == [] then []
    else
      Kept(es[..|es| - 1], acked) + (if IsAcked(es[|es| - 1], acked) then [] else [es[|es| - 1]])
  }

  lemma {:induction false} KeptIsFilter(es: seq<Envelope>, acked: map<string, int>)
    ensures forall e :: e in Kept(es, acked) <==> e in es && !IsAcked(e, acked)
    ensures SentIsPrefix(es) ==> SentIsPrefix(Kept(es, acked))
  {
    if es == [] {
    } else {
      var front := es[..|es| - 1];
      KeptIsFilter(front, acked);
      assert es == front + [es[|es| - 1]];
      if SentIsPrefix(es) {
        assert SentIsPrefix(front);
        var k := Kept(es, acked);
        forall a, b | 0 <= a < b < |k| && k[b].sent ensures k[a].sent {
          if b == |Kept(front, acked)| {
            assert k[a] in front;
          }
        }
      }
    }
  }

  lemma {:induction false} HeldLenConcat(a: seq<Envelope>, b: seq<Envelope>)
    ensures HeldLen(a + b) == HeldLen(a) + HeldLen(b)
  {
    if a == [] {
      assert a + b == b;
    } else {
      assert (a + b)[1..] == a[1..] + b;
      HeldLenConcat(a[1..], b);
    }
  }

  function AckApplied(w: Window, acked: map<string, int>): Window {
    var kept := Kept(w.unacked, acked);
    w.(unacked := kept, heldByte := HeldLen(kept))
  }

  function Flushed(w: Window, caps: Caps): Window {
    w.(unacked := Marked(w.unacked, Picked(w.unacked, 0, 0, caps.batchBytes)))
  }

  function FlushedBatch(w: Window, caps: Caps): seq<Record> {
    RecordsAt(w.unacked, Picked(w.unacked, 0, 0, caps.batchBytes))
  }

  lemma NothingCollected(es: seq<Envelope>)
    ensures RecordsAt(es, []) == []
  {
  }

  lemma RecordsAtSnoc(es: seq<Envelope>, idx: seq<nat>, i: nat)
    requires i < |es| && forall k :: 0 <= k < |idx| ==> idx[k] < |es|
    ensures RecordsAt(es, idx + [i]) == RecordsAt(es, idx) + [es[i].rec]
  {
  }

  lemma PickedNext(es: seq<Envelope>, i: nat, nbytes: nat, target: nat)
    requires i < |es|
    ensures Picked(es, i, nbytes, target) ==
      if es[i].sent then Picked(es, i + 1, nbytes, target)
      else if nbytes + es[i].rawLen >= target then [i]
      else [i] + Picked(es, i + 1, nbytes + es[i].rawLen, target)
  {
  }

  lemma NothingLeft(es: seq<Envelope>, nbytes: nat, target: nat)
    ensures Picked(es, |es|, nbytes, target) == []
  {
  }

  class Client {
    const caps: Caps
    var unacked: seq<Envelope>
    var heldByte: int
    var dropped: nat
    var closed: bool

    ghost function State(): Window
      reads this
    {
      Window(unacked, heldByte, dropped, closed)
    }

    /** Zero or negative settings are replaced by the defaults. */
    constructor (softCap: int, hardCap: int, batchBytes: int)
      ensures State() == Window([], 0, 0, false)
      ensures caps.soft == if softCap <= 0 then 67_108_864 else softCap
      ensures caps.hard == if hardCap <= 0 then 2 * caps.soft else hardCap
      ensures caps.batchBytes == if batchBytes <= 0 then 262_144 else batchBytes
    {
      var soft := if softCap <= 0 then 67_108_864 else softCap;
      var hard := if hardCap <= 0 then 2 * soft else hardCap;
      caps := Caps(soft, hard, if batchBytes <= 0 then 262_144 else batchBytes);
      unacked, heldByte, dropped, closed := [], 0, 0, false;
    }

    /** `rawLen` is none for a record that does not encode. `waits` is what happens
        to the window during each wait for room; `commit` is a record that was
        shed, whose offset is committed. */
    method Enqueue(r: Record, rawLen: Option<nat>, waits: seq<seq<Event>>) returns (outcome: Outcome, commit: Option<Record>)
      modifies this
      ensures rawLen.None? ==> outcome == Unencodable && commit == None && State() == old(State())
      ensures rawLen.Some? ==>
        var w := WithRoom(old(State()), rawLen.value, waits, caps);
        && outcome == EnqueueOutcome(w, rawLen.value, caps)
        && State() == Enqueued(w, r, rawLen.value, caps)
        && commit == Shed(w, rawLen.value, caps)
    {
      if rawLen.None? {
        return Unencodable, None;
      }
      var size := rawLen.value;
      commit := None;
      assert waits[0..] == waits;
      var i := 0;
      while heldByte + size > caps.soft && !closed
        invariant i <= |waits| && commit == None
        invariant WithRoom(State(), size, waits[i..], caps) == WithRoom(old(State()), size, waits, caps)
        decreases |waits| - i
      {
        if heldByte + size > caps.hard {
          commit := DropOldest();
          break;
        }
        if i == |waits| {
          return Waiting, None;
        }
        assert waits[i..][1..] == waits[i + 1..];
        Meanwhile(waits[i]);
        i := i + 1;
      }
      if closed {
        return Canceled, commit;
      }
      unacked := unacked + [Envelope(r, size, false)];
      heldByte := heldByte + size;
      outcome := Queued;
    }

    /** What other goroutines do to the window. */
    method Meanwhile(es: seq<Event>)
      modifies this
      ensures State() == AfterAll(old(State()), es, caps)
    {
      var w := AfterAll(Window(unacked, heldByte, dropped, closed), es, caps);
      unacked, heldByte, dropped, closed := w.unacked, w.heldByte, w.dropped, w.closed;
    }

    method DropOldest() returns (commit: Option<Record>)
      modifies this
      ensures State() == WithoutOldest(old(State()))
      ensures commit == if old(unacked) == [] then None else Some(old(unacked)[0].rec)
    {
      if unacked == [] {
        return None;
      }
      var oldest := unacked[0];
      unacked := unacked[1..];
      heldByte := heldByte - oldest.rawLen;
      dropped := dropped + 1;
      commit := Some(oldest.rec);
    }

    method StartSession()
      modifies this
      ensures State() == old(State()).(unacked := Unsent(old(unacked)))
    {
      for i := 0 to |unacked|
        invariant |unacked| == |old(unacked)|
        invariant State() == old(State()).(unacked := unacked)
        invariant forall j :: 0 <= j < |unacked| ==> unacked[j] == if j < i then old(unacked)[j].(sent := false) else old(unacked)[j]
      {
        unacked := unacked[i := unacked[i].(sent := false)];
      }
    }

    /** One pass of flush: collect a batch, mark it sent, hand it to the stream. */
    method FlushOnce() returns (batch: seq<Record>)
      modifies this
      ensures State() == Flushed(old(State()), caps)
      ensures batch == FlushedBatch(old(State()), caps)
    {
      var idx;
      batch, idx := CollectUnsent();
      MarkSent(idx);
    }

    method CollectUnsent() returns (batch: seq<Record>, idx: seq<nat>)
      ensures idx == Picked(unacked, 0, 0, caps.batchBytes)
      ensures batch == RecordsAt(unacked, idx)
    {
      hide RecordsAt, Picked;
      NothingCollected(unacked);
      ghost var picks := Picked(unacked, 0, 0, caps.batchBytes);
      batch, idx := [], [];
      var nbytes: nat := 0;
      for i := 0 to |unacked|
        invariant idx + Picked(unacked, i, nbytes, caps.batchBytes) == picks
        invariant forall k :: 0 <= k < |idx| ==> idx[k] < |unacked|
        invariant batch == RecordsAt(unacked, idx)
      {
        PickedNext(unacked, i, nbytes, caps.batchBytes);
        RecordsAtSnoc(unacked, idx, i);
        if unacked[i].sent {
          continue;
        }
        batch := batch + [unacked[i].rec];
        idx := idx + [i];
        nbytes := nbytes + unacked[i].rawLen;
        if nbytes >= caps.batchBytes {
          return;
        }
      }
      NothingLeft(unacked, nbytes, caps.batchBytes);
    }

    method MarkSent(idx: seq<nat>)
      requires forall k :: 0 <= k < |idx| ==> idx[k] < |unacked|
      modifies this
      ensures State() == old(State()).(unacked := Marked(old(unacked), idx))
    {
      for k := 0 to |idx|
        invariant State() == old(State()).(unacked := Marked(old(unacked), idx[..k]))
      {
        assert idx[..k + 1] == idx[..k] + [idx[k]];
        unacked := unacked[idx[k] := unacked[idx[k]].(sent := true)];
      }
      assert idx[..|idx|] == idx;
    }

    /** Stores each acked offset, then trims the window. */
    method ApplyAck(acked: map<string, int>, checkpoint: CheckpointFile.Checkpoint)
      requires forall k :: k in acked ==> 0 <= acked[k] < Wire.TWO_63
      requires CheckpointFile.Nonnegative(checkpoint.bucket)
      modifies this, checkpoint
      ensures State() == AckApplied(old(State()), acked)
      ensures CheckpointFile.Nonnegative(checkpoint.bucket)
      ensures forall k ::
        CheckpointFile.OffsetOf(checkpoint.bucket, k) == At(Offsets.MergeMax(CheckpointFile.Marks(old(checkpoint.bucket)), acked), k)
    {
      hide Offsets.MergeMax, CheckpointFile.Nonnegative, CheckpointFile.OffsetOf, CheckpointFile.Marks, AckApplied;
      checkpoint.Commit(acked);
      Trim(acked);
    }

    /** Keeps the envelopes an ack does not cover, in place. */
    method Trim(acked: map<string, int>)
      modifies this
      ensures State() == AckApplied(old(State()), acked)
    {
      var kept: seq<Envelope> := [];
      var held := 0;
      for i := 0 to |unacked|
        invariant State() == old(State())
        invariant kept == Kept(unacked[..i], acked)
        invariant held == HeldLen(kept)
      {
        assert unacked[..i + 1][..i] == unacked[..i];
        if !IsAcked(unacked[i], acked) {
          HeldLenConcat(kept, [unacked[i]]);
          kept := kept + [unacked[i]];
          held := held + unacked[i].rawLen;
        }
      }
      assert unacked[..|unacked|] == unacked;
      unacked := kept;
      heldByte := held;
    }

    method Close()
      modifies this
      ensures State() == old(State()).(closed := true)
    {
      closed := true;
    }
  }

  // ---- The window over every interleaving ----

  ghost predicate SentIsPrefix(es: seq<Envelope>) {
    forall a, b :: 0 <= a < b < |es| && es[b].sent ==> es[a].sent
  }

  ghost predicate WindowOk(w: Window) {
    SentIsPrefix(w.unacked) && w.heldByte == HeldLen(w.unacked)
  }

  datatype Event =
    | Offer(r: Record, rawLen: nat)
    | Flush
    | Reconnect
    | Ack(acked: map<string, int>)
    | Close

  function After(w: Window, e: Event, caps: Caps): Window {
    match e
    case Offer(r, rawLen) => Enqueued(w, r, rawLen, caps)
    case Flush => Flushed(w, caps)
    case Reconnect => w.(unacked := Unsent(w.unacked))
    case Ack(acked) => AckApplied(w, acked)
    case Close => w.(closed := true)
  }

  function AfterAll(w: Window, es: seq<Event>, caps: Caps): Window {
    if es == [] then w else After(AfterAll(w, es[..|es| - 1], caps), es[|es| - 1], caps)
  }

  const EMPTY := Window([], 0, 0, false)

  lemma {:induction false} SameLengths(a: seq<Envelope>, b: seq<Envelope>)
    requires |a| == |b| && forall i :: 0 <= i < |a| ==> a[i].rawLen == b[i].rawLen
    ensures HeldLen(a) == HeldLen(b)
  {
    if a != [] {
      assert forall i :: 0 <= i < |a[1..]| ==> a[1..][i] == a[i + 1] && b[1..][i] == b[i + 1];
      SameLengths(a[1..], b[1..]);
    }
  }

  function Records(es: seq<Envelope>): seq<Record> {
    seq(|es|, i requires 0 <= i < |es| => es[i].rec)
  }

  /** A flush of a good window sends the next unsent records, in window order,
      and exactly those count as sent afterwards. */
  lemma FlushSendsNext(w: Window, caps: Caps)
    requires WindowOk(w)
    ensures WindowOk(Flushed(w, caps))
    ensures
      var lo := FirstUnsent(w.unacked);
      var hi := FirstUnsent(Flushed(w, caps).unacked);
      && lo <= hi
      && FlushedBatch(w, caps) == Records(w.unacked[lo..hi])
      && (lo < |w.unacked| ==> lo < hi)
  {
    var es := w.unacked;
    var idx := Picked(es, 0, 0, caps.batchBytes);
    var lo := FirstUnsent(es);
    PicksAreRun(es, 0, 0, caps.batchBytes, lo);
    RunIsSlice(es, idx, lo);
    MarkedRun(es, idx, lo);
    SameLengths(es, Marked(es, idx));
    FirstUnsentIs(Marked(es, idx), lo + |idx|);
  }

  lemma RunIsSlice(es: seq<Envelope>, idx: seq<nat>, lo: nat)
    requires lo <= |es|
    requires forall k :: 0 <= k < |idx| ==> idx[k] == lo + k && idx[k] < |es|
    ensures lo + |idx| <= |es|
    ensures RecordsAt(es, idx) == Records(es[lo..lo + |idx|])
  {
    if idx != [] { assert idx[|idx| - 1] == lo + |idx| - 1; }
    assert forall k :: 0 <= k < |idx| ==> es[lo..lo + |idx|][k] == es[idx[k]];
  }

  lemma MarkedRun(es: seq<Envelope>, idx: seq<nat>, lo: nat)
    requires lo + |idx| <= |es| && forall j :: 0 <= j < |es| ==> es[j].sent == (j < lo)
    requires forall k :: 0 <= k < |idx| ==> idx[k] == lo + k
    ensures forall j :: 0 <= j < |es| ==> Marked(es, idx)[j].sent == (j < lo + |idx|)
  {
    forall j | 0 <= j < |es| ensures Marked(es, idx)[j].sent == (j < lo + |idx|) {
      if lo <= j < lo + |idx| { assert idx[j - lo] == j; }
    }
  }

  lemma {:induction false} FirstUnsentIs(es: seq<Envelope>, lo: nat)
    requires lo <= |es| && forall i :: 0 <= i < |es| ==> es[i].sent == (i < lo)
    ensures SentIsPrefix(es) && FirstUnsent(es) == lo
  {
    if lo > 0 {
      assert forall a :: 0 <= a < |es[1..]| ==> es[1..][a] == es[a + 1];
      FirstUnsentIs(es[1..], lo - 1);
    }
  }

  function FirstUnsent(es: seq<Envelope>): (lo: nat)
    ensures lo <= |es|
    ensures SentIsPrefix(es) ==> forall i :: 0 <= i < |es| ==> es[i].sent == (i < lo)
  {
    if es == [] || !es[0].sent then 0
    else
      assert forall a :: 0 <= a < |es[1..]| ==> es[1..][a] == es[a + 1];
      1 + FirstUnsent(es[1..])
  }

  lemma WindowOkStep(w: Window, e: Event, caps: Caps)
    requires WindowOk(w)
    ensures WindowOk(After(w, e, caps))
  {
    match e
    case Offer(r, rawLen) =>
      var w1 := if Sheds(w, rawLen, caps) then WithoutOldest(w) else w;
      HeldLenConcat(w1.unacked, [Envelope(r, rawLen, false)]);
    case Flush => FlushSendsNext(w, caps);
    case Reconnect => SameLengths(w.unacked, Unsent(w.unacked));
    case Ack(acked) => KeptIsFilter(w.unacked, acked);
    case Close =>
  }

  /** Over every interleaving, sent flags form a prefix and heldByte is the sum
      of the held lengths. */
  lemma {:induction false} WindowAlwaysOk(es: seq<Event>, caps: Caps)
    ensures WindowOk(AfterAll(EMPTY, es, caps))
  {
    if es == [] {
    } else {
      WindowAlwaysOk(es[..|es| - 1], caps);
      WindowOkStep(AfterAll(EMPTY, es[..|es| - 1], caps), es[|es| - 1], caps);
    }
  }

  /** Every offered record fits the soft cap on its own. */
  predicate AllFit(es: seq<Event>, caps: Caps) {
    forall e :: e in es && e.Offer? ==> e.rawLen <= caps.soft
  }

  lemma {:induction false} KeptIsShorter(es: seq<Envelope>, acked: map<string, int>)
    ensures HeldLen(Kept(es, acked)) <= HeldLen(es)
  {
    if es == [] {
    } else {
      var front, last := es[..|es| - 1], es[|es| - 1];
      KeptIsShorter(front, acked);
      assert es == front + [last];
      HeldLenConcat(front, [last]);
      HeldLenConcat(Kept(front, acked), if IsAcked(last, acked) then [] else [last]);
    }
  }

  /** With a hard cap of at least twice the soft cap, the soft cap is never
      exceeded and nothing is dropped. */
  lemma {:induction false} SoftCapHolds(es: seq<Event>, caps: Caps)
    requires caps.hard >= 2 * caps.soft && AllFit(es, caps)
    ensures AfterAll(EMPTY, es, caps).heldByte <= caps.soft
    ensures AfterAll(EMPTY, es, caps).dropped == 0
  {
    if es == [] {
    } else {
      var front, last := es[..|es| - 1], es[|es| - 1];
      assert es == front + [last];
      assert forall e :: e in front ==> e in es;
      assert last in es;
      SoftCapHolds(front, caps);
      WindowAlwaysOk(front, caps);
      var w := AfterAll(EMPTY, front, caps);
      match last
      case Ack(acked) => KeptIsShorter(w.unacked, acked);
      case _ =>
    }
  }

  /** A hard cap below twice the soft cap does drop: two records of exactly the
      soft cap, offered without an ack between them. */
  lemma LowHardCapDrops(r: Record, caps: Caps)
    requires 0 < caps.soft && caps.hard < 2 * caps.soft
    ensures AllFit([Offer(r, caps.soft), Offer(r, caps.soft)], caps)
    ensures AfterAll(EMPTY, [Offer(r, caps.soft), Offer(r, caps.soft)], caps).dropped == 1
  {
    var o := Offer(r, caps.soft);
    var es := [o, o];
    assert es[..1] == [o] && [o][..0] == [];
    assert AfterAll(EMPTY, [], caps) == EMPTY;
    var w1 := AfterAll(EMPTY, [o], caps);
    assert w1 == After(EMPTY, o, caps);
    assert w1.unacked == [Envelope(r, caps.soft, false)];
    assert AfterAll(EMPTY, es, caps) == After(w1, o, caps);
  }

  /** No run of records that each fit the soft cap drops anything, exactly when
      the hard cap is at least twice the soft cap. */
  lemma NoDropsIff(r: Record, caps: Caps)
    requires 0 < caps.soft
    ensures (forall es: seq<Event> :: AllFit(es, caps) ==> AfterAll(EMPTY, es, caps).dropped == 0)
        <==> caps.hard >= 2 * caps.soft
  {
    if caps.hard >= 2 * caps.soft {
      forall es: seq<Event> | AllFit(es, caps) ensures AfterAll(EMPTY, es, caps).dropped == 0 {
        SoftCapHolds(es, caps);
      }
    } else {
      LowHardCapDrops(r, caps);
    }
  }
}
