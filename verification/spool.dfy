/**
  The manager's open segment (internal/manager/spool.go): ingest with dedup by
  a per-source watermark, sealing with requeue on failure, and the committed
  watermark that gates acks.
 */
module Spooling {
  import opened Model
  import opened Offsets
  import opened RecordLists
  import TimeOrder

  /** The fields of a Spool as one value. */
  datatype SpoolState = SpoolState(
    buf: seq<Record>,
    bufBytes: int,
    received: map<string, int>,
    committed: map<string, int>)

  /** A spool seeded from the watermarks of the recovered catalog. */
  function Seeded(watermarks: map<string, int>): SpoolState {
    SpoolState([], 0, watermarks, watermarks)
  }

  /** Whether the dedup watermark rejects r. */
  predicate IsDuplicate(s: SpoolState, r: Record) {
    r.source in s.received && r.offset <= s.received[r.source]
  }

  function Accepted(s: SpoolState, r: Record, size: Record -> nat): SpoolState {
    if IsDuplicate(s, r) then s
    else s.(received := s.received[r.source := r.offset], buf := s.buf + [r], bufBytes := s.bufBytes + size(r))
  }

  function AcceptAll(s: SpoolState, rs: seq<Record>, size: Record -> nat): SpoolState
    decreases |rs|
  {
    if rs == [] then s else AcceptAll(Accepted(s, rs[0], size), rs[1..], size)
  }

  /** The buffer handed over to a seal. */
  function Taken(s: SpoolState): SpoolState {
    s.(buf := [], bufBytes := 0)
  }

  function Requeued(s: SpoolState, batch: seq<Record>, size: Record -> nat): SpoolState {
    s.(buf := batch + s.buf, bufBytes := s.bufBytes + TotalSize(batch, size))
  }

  /** The batch is durable: its offsets may be acked. */
  function CommittedUpTo(s: SpoolState, batch: seq<Record>): SpoolState {
    s.(committed := MergeMax(s.committed, MaxOff(batch)))
  }

  function TotalSize(rs: seq<Record>, size: Record -> nat): nat {
    if rs == [] then 0 else TotalSize(rs[..|rs| - 1], size) + size(rs[|rs| - 1])
  }

  lemma {:induction false} TotalSizeConcat(a: seq<Record>, b: seq<Record>, size: Record -> nat)
    ensures TotalSize(a + b, size) == TotalSize(a, size) + TotalSize(b, size)
  {
    if b == [] {
      assert a + b == a;
    } else {
      TotalSizeConcat(a, b[..|b| - 1], size);
      assert (a + b)[..|a + b| - 1] == a + b[..|b| - 1];
    }
  }

  lemma {:induction false} TotalSizeOfPermutation(a: seq<Record>, b: seq<Record>, size: Record -> nat)
    requires multiset(a) == multiset(b)
    ensures TotalSize(a, size) == TotalSize(b, size)
    decreases |a|
  {
    if a == [] {
      assert |multiset(b)| == 0;
    } else {
      var last := a[|a| - 1];
      assert a == a[..|a| - 1] + [last];
      assert last in multiset(b);
      var k :| 0 <= k < |b| && b[k] == last;
      assert b == b[..k] + [last] + b[k + 1..];
      assert multiset(a[..|a| - 1]) == multiset(a) - multiset{last};
      assert multiset(b[..k] + b[k + 1..]) == multiset(b) - multiset{last};
      TotalSizeOfPermutation(a[..|a| - 1], b[..k] + b[k + 1..], size);
      TotalSizeConcat(b[..k] + [last], b[k + 1..], size);
      TotalSizeConcat(b[..k], b[k + 1..], size);
      assert (b[..k] + [last])[..k] == b[..k];
    }
  }

  /** The ways one call of Seal can end, in program order. */
  datatype Outcome = CreateFails | HeaderFails | AppendFails | FinishFails | CloseFails | StoreFails | Uploaded

  class Spool {
    const size: Record -> nat
    var buf: seq<Record>
    var bufBytes: int
    var received: map<string, int>
    var committed: map<string, int>

    ghost function State(): SpoolState
      reads this
    {
      SpoolState(buf, bufBytes, received, committed)
    }

    constructor (watermarks: map<string, int>, size: Record -> nat)
      ensures State() == Seeded(watermarks) && this.size == size
    {
      this.size := size;
      buf, bufBytes := [], 0;
      received, committed := watermarks, watermarks;
    }

    /** Buffers r unless it is a duplicate, and says what is then published. */
    method Accept(r: Record) returns (published: Option<Record>)
      modifies this
      ensures State() == Accepted(old(State()), r, size)
      ensures published == if IsDuplicate(old(State()), r) then None else Some(r)
    {
      if r.source in received && r.offset <= received[r.source] {
        return None;
      }
      received := received[r.source := r.offset];
      buf := buf + [r];
      bufBytes := bufBytes + size(r);
      published := Some(r);
    }

    /** The first critical section of Seal, and the sort of the batch. */
    method TakeBatch() returns (batch: seq<Record>)
      modifies this
      ensures State() == Taken(old(State()))
      ensures TimeOrder.Sorted(batch, false)
      ensures multiset(batch) == multiset(old(buf))
    {
      var taken := buf;
      buf, bufBytes := [], 0;
      batch := TimeOrder.SortSlice(taken);
    }

    /** The highest offset per source, built as the batch is appended. */
    method MaxOffsets(batch: seq<Record>) returns (maxOff: map<string, int>)
      ensures maxOff == MaxOff(batch)
    {
      maxOff := map[];
      for i := 0 to |batch|
        invariant maxOff == MaxOff(batch[..i])
      {
        var r := batch[i];
        assert batch[..i + 1][..i] == batch[..i];
        if r.offset > At(maxOff, r.source) {
          maxOff := maxOff[r.source := r.offset];
        }
      }
      assert batch[..|batch|] == batch;
    }

    method Requeue(batch: seq<Record>)
      modifies this
      ensures State() == Requeued(old(State()), batch, size)
    {
      buf := batch + buf;
      for i := 0 to |batch|
        invariant buf == batch + old(buf) && received == old(received) && committed == old(committed)
        invariant bufBytes == old(bufBytes) + TotalSize(batch[..i], size)
      {
        assert batch[..i + 1][..i] == batch[..i];
        bufBytes := bufBytes + size(batch[i]);
      }
      assert batch[..|batch|] == batch;
    }

    /** The last critical section of Seal. */
    method Commit(batch: seq<Record>, maxOff: map<string, int>)
      requires maxOff == MaxOff(batch)
      modifies this
      ensures State() == CommittedUpTo(old(State()), batch)
    {
      committed := MergeInto(committed, maxOff);
    }

    /** Seal, while other goroutines accept `meanwhile` between its first critical
        section and its last. A failed seal puts the batch back in front of what
        arrived, a successful one commits its highest offsets. */
    method Seal(outcome: Outcome, meanwhile: seq<Record>) returns (n: nat, ok: bool, ghost batch: seq<Record>)
      requires bufBytes == TotalSize(buf, size)
      modifies this
      ensures bufBytes == TotalSize(buf, size)
      ensures ok <==> old(buf) == [] || outcome.Uploaded?
      ensures n == if ok then |old(buf)| else 0
      ensures old(buf) == [] ==> State() == old(State())
      ensures old(buf) != [] ==>
        var arrived := AcceptAll(Taken(old(State())), meanwhile, size);
        && TimeOrder.Sorted(batch, false) && multiset(batch) == multiset(old(buf))
        && State() == (if ok then CommittedUpTo(arrived, batch) else Requeued(arrived, batch, size))
        && (ok ==> committed == MergeMax(old(committed), MaxOff(old(buf))))
    {
      batch := [];
      if |buf| == 0 {
        return 0, true, [];
      }
      var taken := TakeBatch();
      batch := taken;
      assert |multiset(batch)| == |multiset(old(buf))|;
      SizeOfNothing(size);
      AcceptEach(meanwhile);
      match outcome {
        case Uploaded =>
          var maxOff := MaxOffsets(taken);
          Commit(taken, maxOff);
          MaxOffOfPermutation(batch, old(buf));
          return |taken|, true, batch;
        case _ =>
          TotalSizeConcat(taken, buf, size);
          Requeue(taken);
          return 0, false, batch;
      }
    }

    /** Arrivals on other streams. */
    method AcceptEach(rs: seq<Record>)
      requires bufBytes == TotalSize(buf, size)
      modifies this
      ensures State() == AcceptAll(old(State()), rs, size)
      ensures bufBytes == TotalSize(buf, size) && committed == old(committed)
    {
      hide TotalSize, MergeMax, MaxOff, Taken, Requeued;
      assert rs[0..] == rs;
      for i := 0 to |rs|
        invariant AcceptAll(State(), rs[i..], size) == AcceptAll(old(State()), rs, size)
        invariant bufBytes == TotalSize(buf, size) && committed == old(committed)
      {
        assert rs[i..][1..] == rs[i + 1..];
        SizeSnoc(buf, rs[i], size);
        var _ := Accept(rs[i]);
      }
    }

    /** Open records in range, ascending. */
    method Snapshot(start: Time, end: Time) returns (out: seq<Record>)
      ensures TimeOrder.Sorted(out, false)
      ensures multiset(out) == multiset(InSpan(buf, start, end))
    {
      out := [];
      for i := 0 to |buf|
        invariant out == InSpan(buf[..i], start, end)
      {
        assert buf[..i + 1][..i] == buf[..i];
        if InRange(buf[i].timestamp, start, end) {
          out := out + [buf[i]];
        }
      }
      assert buf[..|buf|] == buf;
      out := TimeOrder.SortSlice(out);
    }
  }

  lemma SizeOfNothing(size: Record -> nat)
    ensures TotalSize([], size) == 0
  {
  }

  lemma SizeSnoc(rs: seq<Record>, r: Record, size: Record -> nat)
    ensures TotalSize(rs + [r], size) == TotalSize(rs, size) + size(r)
  {
    assert (rs + [r])[..|rs|] == rs;
  }

  function InSpan(rs: seq<Record>, start: Time, end: Time): seq<Record> {
    if rs == [] then []
    else
      InSpan(rs[..|rs| - 1], start, end)
      + (if InRange(rs[|rs| - 1].timestamp, start, end) then [rs[|rs| - 1]] else [])
  }

  // ---- Conservation over every interleaving ----

  /** What can happen to a spool: Accept runs between any two critical sections
      of any number of seals. */
  datatype Event =
    | Arrive(r: Record)
    | Begin(batch: seq<Record>)
    | Fail(k: nat)
    | Finish(k: nat)

  /** A spool with the seals in flight and what was sealed since it started. */
  datatype Ledger = Ledger(spool: SpoolState, flights: seq<seq<Record>>, sealed: seq<Record>, accepted: seq<Record>)

  predicate Possible(l: Ledger, e: Event) {
    match e
    case Arrive(_) => true
    case Begin(batch) => |l.spool.buf| > 0 && TimeOrder.Sorted(batch, false) && multiset(batch) == multiset(l.spool.buf)
    case Fail(k) => k < |l.flights|
    case Finish(k) => k < |l.flights|
  }

  function After(l: Ledger, e: Event, size: Record -> nat): Ledger
    requires Possible(l, e)
  {
    match e
    case Arrive(r) =>
      l.(spool := Accepted(l.spool, r, size),
         accepted := if IsDuplicate(l.spool, r) then l.accepted else l.accepted + [r])
    case Begin(batch) => l.(spool := Taken(l.spool), flights := l.flights + [batch])
    case Fail(k) =>
      l.(spool := Requeued(l.spool, l.flights[k], size), flights := l.flights[..k] + l.flights[k + 1..])
    case Finish(k) =>
      l.(spool := CommittedUpTo(l.spool, l.flights[k]), flights := l.flights[..k] + l.flights[k + 1..],
         sealed := l.sealed + l.flights[k])
  }

  predicate PossibleRun(l: Ledger, es: seq<Event>, size: Record -> nat)
    decreases |es|
  {
    es == [] || (Possible(l, es[0]) && PossibleRun(After(l, es[0], size), es[1..], size))
  }

  function AfterAll(l: Ledger, es: seq<Event>, size: Record -> nat): Ledger
    requires PossibleRun(l, es, size)
    decreases |es|
  {
    if es == [] then l else AfterAll(After(l, es[0], size), es[1..], size)
  }

  function InFlight(flights: seq<seq<Record>>): multiset<Record> {
    if flights == [] then multiset{} else multiset(flights[0]) + InFlight(flights[1..])
  }

  lemma {:induction false} InFlightConcat(a: seq<seq<Record>>, b: seq<seq<Record>>)
    ensures InFlight(a + b) == InFlight(a) + InFlight(b)
  {
    if a == [] {
      assert a + b == b;
    } else {
      assert (a + b)[1..] == a[1..] + b;
      InFlightConcat(a[1..], b);
    }
  }

  lemma {:induction false} InFlightWithout(flights: seq<seq<Record>>, k: nat)
    requires k < |flights|
    ensures InFlight(flights) == multiset(flights[k]) + InFlight(flights[..k] + flights[k + 1..])
  {
    if k == 0 {
      assert flights[..0] + flights[1..] == flights[1..];
    } else {
      InFlightWithout(flights[1..], k - 1);
      var rest := flights[..k] + flights[k + 1..];
      assert rest[1..] == flights[1..][..k - 1] + flights[1..][k..];
    }
  }

  ghost predicate Conserved(l: Ledger, size: Record -> nat) {
    && multiset(l.accepted) == multiset(l.sealed) + InFlight(l.flights) + multiset(l.spool.buf)
    && l.spool.bufBytes == TotalSize(l.spool.buf, size)
  }

  lemma OneInFlight(batch: seq<Record>)
    ensures InFlight([batch]) == multiset(batch)
  {
    assert [batch][1..] == [];
  }

  lemma ConservedStep(l: Ledger, e: Event, size: Record -> nat)
    requires Possible(l, e) && Conserved(l, size)
    ensures Conserved(After(l, e, size), size)
  {
    hide InFlight, TotalSize, MaxOff, MergeMax;
    match e
    case Arrive(r) => SizeSnoc(l.spool.buf, r, size);
    case Begin(batch) => InFlightConcat(l.flights, [batch]); OneInFlight(batch); SizeOfNothing(size);
    case Fail(k) =>
      InFlightWithout(l.flights, k);
      TotalSizeConcat(l.flights[k], l.spool.buf, size);
    case Finish(k) =>
      InFlightWithout(l.flights, k);
  }

  /** Across every interleaving of arrivals with any number of seals that end
      in any way, no accepted record is lost or doubled. */
  lemma {:induction false} Conservation(l: Ledger, es: seq<Event>, size: Record -> nat)
    requires PossibleRun(l, es, size) && Conserved(l, size)
    ensures Conserved(AfterAll(l, es, size), size)
    decreases |es|
  {
    if es == [] {
    } else {
      ConservedStep(l, es[0], size);
      Conservation(After(l, es[0], size), es[1..], size);
    }
  }

  lemma ConservationFromStart(watermarks: map<string, int>, es: seq<Event>, size: Record -> nat)
    requires PossibleRun(Ledger(Seeded(watermarks), [], [], []), es, size)
    ensures
      var l := AfterAll(Ledger(Seeded(watermarks), [], [], []), es, size);
      && multiset(l.accepted) == multiset(l.sealed) + InFlight(l.flights) + multiset(l.spool.buf)
      && l.spool.bufBytes == TotalSize(l.spool.buf, size)
  {
    Conservation(Ledger(Seeded(watermarks), [], [], []), es, size);
  }

  // ---- Order over every interleaving ----

  predicate Bounded(rs: seq<Record>, marks: map<string, int>) {
    forall i :: 0 <= i < |rs| ==> rs[i].source in marks && rs[i].offset <= marks[rs[i].source]
  }

  predicate PositiveArrivals(es: seq<Event>) {
    forall i :: 0 <= i < |es| && es[i].Arrive? ==> es[i].r.offset > 0
  }

  /** What earlier managers sealed and this one accepted is in order, below the
      watermarks. */
  predicate InSequence(before: seq<Record>, l: Ledger) {
    var all := before + l.accepted;
    Ascending(all) && Positive(all) && Bounded(all, l.spool.received)
  }

  lemma InSequenceStep(before: seq<Record>, l: Ledger, e: Event, size: Record -> nat)
    requires InSequence(before, l) && Possible(l, e) && (e.Arrive? ==> e.r.offset > 0)
    ensures InSequence(before, After(l, e, size)) && l.accepted <= After(l, e, size).accepted
  {
    hide TotalSize, MaxOff, MergeMax;
    if e.Arrive? && !IsDuplicate(l.spool, e.r) {
      assert before + (l.accepted + [e.r]) == before + l.accepted + [e.r];
    }
  }

  /** However arrivals, duplicates and failing seals interleave, the accepted
      records ascend strictly in each source, after those sealed before. */
  lemma {:induction false} AcceptedAscend(before: seq<Record>, l: Ledger, es: seq<Event>, size: Record -> nat)
    requires InSequence(before, l) && PossibleRun(l, es, size) && PositiveArrivals(es)
    ensures InSequence(before, AfterAll(l, es, size)) && l.accepted <= AfterAll(l, es, size).accepted
    decreases |es|
  {
    if es == [] {
    } else {
      InSequenceStep(before, l, es[0], size);
      AcceptedAscend(before, After(l, es[0], size), es[1..], size);
    }
  }

  /** What is sealed stays sealed. */
  lemma {:induction false} SealedGrows(l: Ledger, es: seq<Event>, size: Record -> nat)
    requires PossibleRun(l, es, size)
    ensures l.sealed <= AfterAll(l, es, size).sealed
    decreases |es|
  {
    if es == [] {
    } else {
      SealedGrows(After(l, es[0], size), es[1..], size);
    }
  }
}
