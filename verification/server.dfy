/**
  The manager's side of an ingest stream (internal/ingest/server.go): delivery
  to the spool in stream order, and which offsets are acked on the stream.
 */
module IngestServer {
  import opened Model
  import opened RecordLists
  import Offsets
  import S = Spooling

  /** The records of a batch that decode; the others are skipped. */
  function Decoded(raws: seq<Option<Record>>): seq<Record> {
    if raws == [] then []
    else (match raws[0] case None => [] case Some(r) => [r]) + Decoded(raws[1..])
  }

  function Sources(rs: seq<Record>): set<string> {
    set r | r in rs :: r.source
  }

  /** The loop of buildAck. */
  method BuildAck(seen: set<string>, committed: map<string, int>) returns (ack: map<string, int>)
    ensures ack == Offsets.BuildAck(seen, committed)
  {
    ack := map[];
    var todo := seen;
    while todo != {}
      invariant todo <= seen && ack == Offsets.BuildAck(seen - todo, committed)
      decreases todo
    {
      var key :| key in todo;
      todo := todo - {key};
      if key in committed {
        ack := ack[key := committed[key]];
      }
    }
    assert seen - {} == seen;
  }

  class Stream {
    const spool: S.Spool
    var seen: set<string>

    constructor (spool: S.Spool)
      ensures this.spool == spool && seen == {}
    {
      this.spool, seen := spool, {};
    }

    /** One batch of the stream: accept in order, then ack what is committed of
        the sources seen on this stream. */
    method Batch(raws: seq<Option<Record>>) returns (ack: map<string, int>)
      modifies this, spool
      ensures spool.State() == S.AcceptAll(old(spool.State()), Decoded(raws), spool.size)
      ensures seen == old(seen) + Sources(Decoded(raws))
      ensures ack == Offsets.BuildAck(seen, spool.committed)
    {
      assert raws[0..] == raws;
      for i := 0 to |raws|
        invariant S.AcceptAll(spool.State(), Decoded(raws[i..]), spool.size)
               == S.AcceptAll(old(spool.State()), Decoded(raws), spool.size)
        invariant seen + Sources(Decoded(raws[i..])) == old(seen) + Sources(Decoded(raws))
      {
        assert raws[i..][1..] == raws[i + 1..];
        ghost var rest := Decoded(raws[i + 1..]);
        assert [] + rest == rest;
        if raws[i].Some? {
          var rec := raws[i].value;
          assert Decoded(raws[i..]) == [rec] + rest && ([rec] + rest)[1..] == rest;
          SourcesCons(rec, rest);
          var _ := spool.Accept(rec);
          seen := seen + {rec.source};
        }
      }
      ack := BuildAck(seen, spool.committed);
    }
  }

  lemma SourcesCons(r: Record, rs: seq<Record>)
    ensures Sources([r] + rs) == {r.source} + Sources(rs)
  {
    forall s | s in {r.source} + Sources(rs) ensures s in Sources([r] + rs) {
      if s == r.source {
        assert r in [r] + rs;
      } else {
        var x :| x in rs && x.source == s;
        assert x in [r] + rs;
      }
    }
  }

  /** The buffer ascends per source and stays at or below the watermark. */
  ghost predicate Orderly(s: S.SpoolState) {
    && Ascending(s.buf)
    && forall i :: 0 <= i < |s.buf| ==> s.buf[i].source in s.received && s.buf[i].offset <= s.received[s.buf[i].source]
  }

  lemma AcceptedOrderly(s: S.SpoolState, r: Record, size: Record -> nat)
    requires Orderly(s)
    ensures Orderly(S.Accepted(s, r, size))
  {
  }

  /** Whatever is delivered, in whatever order and however often, what the spool
      accepts ascends strictly per source. */
  lemma {:induction false} AcceptedAscend(s: S.SpoolState, rs: seq<Record>, size: Record -> nat)
    requires Orderly(s)
    ensures Orderly(S.AcceptAll(s, rs, size))
    ensures s.buf <= S.AcceptAll(s, rs, size).buf
    decreases |rs|
  {
    if rs != [] {
      AcceptedOrderly(s, rs[0], size);
      AcceptedAscend(S.Accepted(s, rs[0], size), rs[1..], size);
    }
  }
}
