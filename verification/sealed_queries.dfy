/**
  Queries over a catalog of sealed segments: when Run's answer covers every
  record of the batches that were sealed.
 */
module SealedQueries {
  import opened Model
  import opened RecordLists
  import opened TimeOrder
  import opened Wire
  import opened Merge
  import opened Planner
  import opened SegmentFormat
  import opened SegmentWriter
  import opened SegmentRoundTrip
  import Executor
  import Q = Query

  /** The metadata as the writer returned it, before the store filled in the rest. */
  function Bare(m: SegmentMeta): SegmentMeta {
    m.(id := "", s3Key := "", localPath := "")
  }

  /** A cataloged segment the writer made of a sorted batch, opened and read as
      its file is. */
  ghost predicate Sealed(c: Codec, target: int, seg: Segment, batch: seq<Record>) {
    && Encodable(c, batch) && Sorted(batch, false)
    && Described(c, Split(c, batch, target), batch, Bare(seg.meta))
    && seg.blocks == QueryBlocks(c, Groups(c, batch, target)) && seg.opens
  }

  lemma SealedHolds(c: Codec, target: int, seg: Segment, batch: seq<Record>)
    requires Sealed(c, target, seg, batch)
    ensures SegmentShape(seg) && AllRecs(seg.blocks) == batch
    ensures SegmentOk(seg) <==> StampsFit(batch)
    ensures forall b :: b in seg.blocks ==> b.readable == Short(c, b.recs)
  {
    hide Described, Split, Groups, SegmentShape, SegmentOk, Short, StampsFit;
    SealedSegmentOk(c, batch, target, Bare(seg.meta));
    SameForQueries(seg, seg.(meta := Bare(seg.meta)));
    GroupsOk(c, batch, target);
  }

  lemma SameForQueries(seg: Segment, bare: Segment)
    requires bare == seg.(meta := Bare(seg.meta))
    ensures SegmentShape(seg) <==> SegmentShape(bare)
    ensures SegmentOk(seg) <==> SegmentOk(bare)
  {
  }

  lemma {:induction false} TraversalDrawn(blocks: seq<Block>, start: Time, end: Time)
    ensures forall b :: b in Chosen(blocks, start, end) ==> b in blocks
  {
    if blocks != [] {
      TraversalDrawn(blocks[..|blocks| - 1], start, end);
    }
  }

  lemma FirstRead(seg: Segment, req: Request)
    ensures forall b :: b in Traversal(seg, req) ==> b in seg.blocks
  {
    TraversalDrawn(seg.blocks, req.start, req.end);
    ReverseBlocksAt(Chosen(seg.blocks, req.start, req.end));
  }

  /** A consulted segment fails silently exactly when a line of the first block
      to read does not fit the scanner. */
  lemma SilentIff(c: Codec, target: int, seg: Segment, batch: seq<Record>, req: Request)
    requires Sealed(c, target, seg, batch) && Consulted(seg, req)
    ensures Silent(seg, req) <==> Traversal(seg, req) != [] && !Short(c, Traversal(seg, req)[0].recs)
  {
    hide Sealed, Traversal, Consulted, Short;
    SealedHolds(c, target, seg, batch);
    FirstRead(seg, req);
    if Traversal(seg, req) != [] {
      assert Traversal(seg, req)[0] in Traversal(seg, req);
    }
  }

  lemma {:induction false} ShortParts(c: Codec, gs: seq<seq<Record>>)
    requires Short(c, Concat(gs))
    ensures forall g :: g in gs ==> Short(c, g)
  {
    hide Short;
    if gs != [] {
      ShortSplits(c, gs[0], Concat(gs[1..]));
      ShortParts(c, gs[1..]);
      assert gs == [gs[0]] + gs[1..];
    }
  }

  lemma AllReadable(c: Codec, target: int, seg: Segment, batch: seq<Record>)
    requires Sealed(c, target, seg, batch) && Short(c, batch)
    ensures forall b :: b in seg.blocks ==> b.readable
  {
    hide Described, Split, Groups, Short, Encodable;
    var gs := Groups(c, batch, target);
    GroupsOk(c, batch, target);
    ShortParts(c, gs);
    forall i | 0 <= i < |seg.blocks| ensures seg.blocks[i].readable {
      assert gs[i] in gs;
    }
  }

  /** Over sealed segments whose lines all fit the scanner nothing is broken, so
      Run succeeds. */
  lemma SealedReadable(c: Codec, target: int, catalog: seq<Segment>, batches: seq<seq<Record>>, req: Request)
    requires |catalog| == |batches|
    requires forall i :: 0 <= i < |catalog| ==> Sealed(c, target, catalog[i], batches[i]) && Short(c, batches[i])
    ensures forall i :: 0 <= i < |catalog| ==> SegmentShape(catalog[i])
    ensures !Executor.Broken(catalog, req)
  {
    hide Sealed, Short, Traversal, Consulted, SegmentShape;
    forall i | 0 <= i < |catalog|
      ensures SegmentShape(catalog[i]) && catalog[i].opens
      ensures forall b :: b in Traversal(catalog[i], req) ==> b.readable
    {
      SealedHolds(c, target, catalog[i], batches[i]);
      SealedOpens(c, target, catalog[i], batches[i]);
      AllReadable(c, target, catalog[i], batches[i]);
      FirstRead(catalog[i], req);
    }
  }

  /** If every timestamp fits as well it covers every segment. */
  lemma SealedServe(lib: Q.Library, c: Codec, target: int, catalog: seq<Segment>, batches: seq<seq<Record>>, req: Request)
    requires |catalog| == |batches|
    requires forall i :: 0 <= i < |catalog| ==> Sealed(c, target, catalog[i], batches[i]) && Short(c, batches[i])
    requires forall i :: 0 <= i < |batches| ==> StampsFit(batches[i])
    ensures forall i :: 0 <= i < |catalog| ==> SegmentOk(catalog[i])
    ensures !Executor.Broken(catalog, req) && Executor.NothingLost(lib, req, catalog)
  {
    hide Sealed, Short, SegmentOk, SegmentShape, StampsFit, Executor.Broken, Executor.NothingLost;
    SealedReadable(c, target, catalog, batches, req);
    forall i | 0 <= i < |catalog| ensures SegmentOk(catalog[i]) {
      SealedHolds(c, target, catalog[i], batches[i]);
    }
    Executor.NothingSilent(lib, req, catalog);
  }

  lemma SealedOpens(c: Codec, target: int, seg: Segment, batch: seq<Record>)
    requires Sealed(c, target, seg, batch)
    ensures seg.opens
  {
  }

  /** The segments hold the records of the batches, whatever the direction. */
  lemma {:induction false} SealedRecords(c: Codec, target: int, catalog: seq<Segment>, batches: seq<seq<Record>>, req: Request)
    requires |catalog| == |batches|
    requires forall i :: 0 <= i < |catalog| ==> Sealed(c, target, catalog[i], batches[i])
    ensures multiset(Concat(Executor.EveryList(catalog, req))) == multiset(Concat(batches))
  {
    hide Sealed, Concat;
    if catalog == [] {
      assert batches == [];
    } else {
      var n := |catalog| - 1;
      SealedRecords(c, target, catalog[..n], batches[..n], req);
      SealedHolds(c, target, catalog[n], batches[n]);
      assert batches == batches[..n] + [batches[n]];
      ConcatSnoc(batches[..n], batches[n]);
      ConcatSnoc(Executor.EveryList(catalog[..n], req), Directed(batches[n], req.desc));
      SameRecords(batches[n], req.desc);
    }
  }

  // ---- The gap ----

  lemma OneGroup(c: Codec, r: Record, target: int)
    ensures Groups(c, [r], target) == [[r]]
  {
    assert [r][..0] == [] && Split(c, [], target) == Parts([], []);
    assert Text(c, []) == [];
    assert [] + [r] == [r];
  }

  lemma OneBlockRead(seg: Segment, b: Block, req: Request)
    requires seg.blocks == [b] && req.start == ZERO_TIME && req.end == ZERO_TIME
    ensures Traversal(seg, req) == [b]
  {
    assert [b][..0] == [] && Chosen([b], req.start, req.end) == Chosen([], req.start, req.end) + [b];
    assert ReverseBlocks([b]) == [b] + ReverseBlocks([]);
  }

  lemma SealedAlone(c: Codec, target: int, seg: Segment, r: Record)
    requires Sealed(c, target, seg, [r])
    ensures |seg.blocks| == 1 && seg.blocks[0].recs == [r]
    ensures seg.blocks[0].meta.minTS == seg.blocks[0].meta.maxTS == Signed64(Unsigned64(r.timestamp))
    ensures seg.meta.minTS == seg.meta.maxTS == r.timestamp
  {
    OneGroup(c, r, target);
    Layout(c, [r], target, 0);
    BoundsAreExact([r]);
    var b := Metas(c, [[r]])[0];
    assert b.minTS <= r.timestamp <= b.maxTS;
    Signed64Twice(r.timestamp);
  }

  /** What is read of a catalog of one segment that is not kept. */
  lemma AnswersOverOne(lib: Q.Library, seg: Segment, r: Record, req: Request)
    requires AllRecs(seg.blocks) == [r] && !Kept(seg, req) && Wanted(lib, req, r) && req.limit == 0
    ensures Naive(lib, req, Executor.ReadLists([seg], [], req)) == []
    ensures Naive(lib, req, Executor.AllLists([seg], [], req)) == [r]
  {
    hide Kept, Wanted;
    assert [seg][..0] == [] && KeptLists([], req) == [] && Executor.EveryList([], req) == [];
    OneRecord(r, req.desc);
    assert Executor.ReadLists([seg], [], req) == [[]];
    ConcatOfEmpty([[]]);
    ConcatSnoc([[r]], []);
    ConcatSnoc([], [r]);
    FilterCons(lib, req, r, []);
  }

  lemma OneRecord(r: Record, desc: bool)
    ensures Directed([], desc) == [] && Directed([r], desc) == [r] && StableSort([r], desc) == [r]
  {
    assert [r][1..] == [];
  }

  /** A batch whose only line is too long seals into a segment that a query
      passes over in silence: Run succeeds without the record. */
  lemma LongLineLoses(lib: Q.Library, c: Codec, target: int, seg: Segment, r: Record, desc: bool)
    requires Sealed(c, target, seg, [r]) && !Short(c, [r])
    ensures var req := Request(Q.MatchAll, ZERO_TIME, ZERO_TIME, 0, desc);
      && SegmentShape(seg) && Wanted(lib, req, r) && Silent(seg, req)
      && Naive(lib, req, Executor.ReadLists([seg], [], req)) == []
      && Naive(lib, req, Executor.AllLists([seg], [], req)) == [r]
  {
    hide Sealed, Short, Naive, AllRecs, SegmentShape, Executor.ReadLists, Executor.AllLists, Traversal;
    var req := Request(Q.MatchAll, ZERO_TIME, ZERO_TIME, 0, desc);
    SealedHolds(c, target, seg, [r]);
    SealedAlone(c, target, seg, r);
    OneBlockRead(seg, seg.blocks[0], req);
    AnswersOverOne(lib, seg, r, req);
  }

  /** A batch whose only line is stamped past the 64-bit nanoseconds seals into a
      segment whose block reads back as earlier: asked for what is stamped from
      then on, Run breaks nowhere and answers with nothing. */
  lemma FarStampLoses(lib: Q.Library, c: Codec, target: int, seg: Segment, r: Record, desc: bool)
    requires Sealed(c, target, seg, [r]) && Short(c, [r]) && r.timestamp >= TWO_63
    ensures var req := Request(Q.MatchAll, r.timestamp, ZERO_TIME, 0, desc);
      && SegmentShape(seg) && Wanted(lib, req, r) && Consulted(seg, req) && Traversal(seg, req) == []
      && !Executor.Broken([seg], req)
      && Naive(lib, req, Executor.ReadLists([seg], [], req)) == []
      && Naive(lib, req, Executor.AllLists([seg], [], req)) == [r]
  {
    hide Sealed, Short, Naive, AllRecs, SegmentShape, Executor.ReadLists, Executor.AllLists;
    var req := Request(Q.MatchAll, r.timestamp, ZERO_TIME, 0, desc);
    SealedHolds(c, target, seg, [r]);
    SealedOpens(c, target, seg, [r]);
    SealedAlone(c, target, seg, r);
    assert seg.blocks == [seg.blocks[0]] && seg.blocks[..0] == [];
    assert Chosen(seg.blocks, req.start, req.end) == [];
    AnswersOverOne(lib, seg, r, req);
  }
}
