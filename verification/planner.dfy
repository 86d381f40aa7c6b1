/**
  Query execution (internal/query/planner.go, internal/query/iter.go): lazy
  cursors over blocks, pruning, k-way merge and limit.
 */
module Planner {
  import opened Model
  import opened RecordLists
  import opened TimeOrder
  import opened Merge
  import Q = Query

  /** A block as stored; a block that is not readable fails when it is read. */
  datatype Block = Block(meta: BlockMeta, recs: seq<Record>, readable: bool)

  /** A cataloged segment; one that does not open fails in Reader. */
  datatype Segment = Segment(meta: SegmentMeta, blocks: seq<Block>, opens: bool)

  function AllRecs(blocks: seq<Block>): seq<Record> {
    if blocks == [] then [] else blocks[0].recs + AllRecs(blocks[1..])
  }

  /** What the segment writer guarantees of the records of a segment. */
  ghost predicate SegmentShape(seg: Segment) {
    (forall i :: 0 <= i < |seg.blocks| ==> seg.blocks[i].recs != []) && Sorted(AllRecs(seg.blocks), false)
  }

  /** A segment whose bounds and summary cover its records, as pruning assumes. */
  ghost predicate SegmentOk(seg: Segment) {
    && SegmentShape(seg)
    && (forall i :: 0 <= i < |seg.blocks| ==> BlockOk(seg.blocks[i]))
    && (forall r :: r in AllRecs(seg.blocks) ==> seg.meta.minTS <= r.timestamp <= seg.meta.maxTS && Q.Summarises(seg.meta, r))
  }

  ghost predicate BlockOk(b: Block) {
    b.recs != [] && forall r :: r in b.recs ==> b.meta.minTS <= r.timestamp <= b.meta.maxTS
  }

  /** The blocks whose span meets the range. */
  function Chosen(blocks: seq<Block>, start: Time, end: Time): seq<Block> {
    if blocks == [] then []
    else
      Chosen(blocks[..|blocks| - 1], start, end)
      + (if blocks[|blocks| - 1].meta.Overlaps(start, end) then [blocks[|blocks| - 1]] else [])
  }

  function ReverseBlocks(bs: seq<Block>): seq<Block> {
    if bs == [] then [] else [bs[|bs| - 1]] + ReverseBlocks(bs[..|bs| - 1])
  }

  /** The chosen blocks in reading order. */
  function Traversal(seg: Segment, req: Request): seq<Block> {
    var chosen := Chosen(seg.blocks, req.start, req.end);
    if req.desc then ReverseBlocks(chosen) else chosen
  }

  /** The records of blocks read in turn. */
  function Contents(bs: seq<Block>, desc: bool): seq<Record> {
    if bs == [] then [] else Directed(bs[0].recs, desc) + Contents(bs[1..], desc)
  }

  // ---- Cursors ----

  class SegIter {
    const blocks: seq<Block>
    const desc: bool
    var order: seq<nat>
    var bi: nat
    var buf: seq<Record>
    var pos: nat
    var err: bool

    ghost predicate Valid()
      reads this
    {
      && bi <= |order|
      && (forall i :: 0 <= i < |order| ==> order[i] < |blocks|)
      && (forall i :: 0 <= i < |blocks| ==> blocks[i].recs != [])
    }

    /** The blocks still to be read. */
    ghost function Ahead(): seq<Block>
      requires Valid()
      reads this
    {
      BlocksAt(blocks, order[bi..])
    }

    /** No read failed, and none ahead will. */
    ghost predicate AllReadable()
      requires Valid()
      reads this
    {
      !err && forall b :: b in Ahead() ==> b.readable
    }

    /** The records still to be yielded, loaded or not. */
    ghost function Rest(): seq<Record>
      requires Valid()
      reads this
    {
      (if pos <= |buf| then buf[pos..] else []) + Contents(Ahead(), desc)
    }

    constructor (seg: Segment, req: Request)
      requires forall i :: 0 <= i < |seg.blocks| ==> seg.blocks[i].recs != []
      ensures Valid() && !err && blocks == seg.blocks && desc == req.desc
      ensures buf == [] && pos == 0
      ensures Ahead() == Traversal(seg, req)
      ensures Rest() == Contents(Traversal(seg, req), req.desc)
    {
      hide Contents, Chosen, ReverseBlocks, BlocksAt;
      NothingChosen(seg.blocks, req.start, req.end);
      blocks, desc := seg.blocks, req.desc;
      order, bi, buf, pos, err := [], 0, [], 0, false;
      new;
      for i := 0 to |blocks|
        invariant bi == 0 && buf == [] && pos == 0 && !err
        invariant forall k :: 0 <= k < |order| ==> order[k] < i
        invariant BlocksAt(blocks, order) == Chosen(blocks[..i], req.start, req.end)
      {
        ChosenNext(blocks, order, i, req.start, req.end);
        if blocks[i].meta.Overlaps(req.start, req.end) {
          order := order + [i];
        }
      }
      assert blocks[..|blocks|] == blocks;
      if desc {
        ghost var forward := order;
        order := ReverseInPlace(order);
        OrderReversed(blocks, forward, order);
      }
      assert order[0..] == order;
    }

    /** Reads ahead: the next block that has records replaces the used-up buffer. */
    method Load()
      requires Valid() && !err
      modifies this
      ensures Valid() && order == old(order)
      ensures !err ==> Rest() == old(Rest()) && (pos < |buf| || Rest() == [])
      ensures err <==> old(pos) >= |old(buf)| && old(Ahead()) != [] && !old(Ahead())[0].readable
      ensures err ==> pos >= |buf|
      ensures old(AllReadable()) ==> AllReadable()
    {
      while pos >= |buf| && bi < |order|
        invariant Valid() && order == old(order) && !err
        invariant Rest() == old(Rest())
        invariant pos < |buf| || (bi == old(bi) && pos == old(pos) && buf == old(buf))
        invariant forall b :: b in Ahead() ==> b in old(Ahead())
        invariant pos < |buf| ==> old(pos) < |old(buf)| || (old(Ahead()) != [] && old(Ahead())[0].readable)
        decreases |order| - bi
      {
        var idx := order[bi];
        assert Ahead()[0] == blocks[idx];
        ghost var ahead := Ahead();
        bi := bi + 1;
        assert Ahead() == ahead[1..];
        if !blocks[idx].readable {
          err := true;
          buf := [];
          return;
        }
        buf := blocks[idx].recs;
        if desc {
          buf := ReverseInPlace(buf);
        }
        ReverseAt(blocks[idx].recs);
        assert desc ==> buf == Reverse(blocks[idx].recs);
        pos := 0;
        assert buf[0..] == Directed(blocks[idx].recs, desc);
      }
    }

    method Peek() returns (r: Option<Record>)
      requires Valid()
      modifies this
      ensures Valid() && order == old(order)
      ensures err ==> r == None
      ensures !err ==> Rest() == old(Rest()) && r == (if Rest() == [] then None else Some(Rest()[0]))
      ensures !err && r.Some? ==> pos < |buf|
      ensures err <==> old(err) || (old(pos) >= |old(buf)| && old(Ahead()) != [] && !old(Ahead())[0].readable)
      ensures old(AllReadable()) ==> AllReadable()
    {
      if err {
        return None;
      }
      Load();
      if pos >= |buf| {
        return None;
      }
      r := Some(buf[pos]);
    }

    method Pop()
      requires Valid() && pos < |buf|
      modifies this
      ensures Valid() && order == old(order) && err == old(err) && Rest() == old(Rest())[1..]
      ensures old(AllReadable()) ==> AllReadable()
    {
      pos := pos + 1;
      assert Ahead() == old(Ahead());
    }
  }

  function BlocksAt(blocks: seq<Block>, order: seq<nat>): seq<Block>
    requires forall k :: 0 <= k < |order| ==> order[k] < |blocks|
  {
    seq(|order|, i requires 0 <= i < |order| => blocks[order[i]])
  }

  lemma NothingChosen(blocks: seq<Block>, start: Time, end: Time)
    ensures BlocksAt(blocks, []) == Chosen(blocks[..0], start, end)
  {
  }

  lemma ChosenNext(blocks: seq<Block>, order: seq<nat>, i: nat, start: Time, end: Time)
    requires i < |blocks| && forall k :: 0 <= k < |order| ==> order[k] < i
    requires BlocksAt(blocks, order) == Chosen(blocks[..i], start, end)
    ensures BlocksAt(blocks, if blocks[i].meta.Overlaps(start, end) then order + [i] else order)
         == Chosen(blocks[..i + 1], start, end)
  {
    assert blocks[..i + 1][..i] == blocks[..i];
  }

  lemma OrderReversed(blocks: seq<Block>, forward: seq<nat>, order: seq<nat>)
    requires forall k :: 0 <= k < |forward| ==> forward[k] < |blocks|
    requires |order| == |forward| && forall k :: 0 <= k < |forward| ==> order[k] == forward[|forward| - 1 - k]
    ensures forall k :: 0 <= k < |order| ==> order[k] < |blocks|
    ensures BlocksAt(blocks, order) == ReverseBlocks(BlocksAt(blocks, forward))
  {
    ReverseBlocksAt(BlocksAt(blocks, forward));
  }

  lemma {:induction false} ReverseBlocksAt(bs: seq<Block>)
    ensures |ReverseBlocks(bs)| == |bs|
    ensures forall i :: 0 <= i < |bs| ==> ReverseBlocks(bs)[i] == bs[|bs| - 1 - i]
  {
    if bs != [] {
      ReverseBlocksAt(bs[..|bs| - 1]);
    }
  }

  /** Reverses a slice in place, swapping from both ends. */
  method ReverseInPlace<T>(xs: seq<T>) returns (ys: seq<T>)
    ensures |ys| == |xs| && forall k :: 0 <= k < |xs| ==> ys[k] == xs[|xs| - 1 - k]
  {
    ys := xs;
    var i, j := 0, |xs| - 1;
    while i < j
      invariant 0 <= i && i + j == |xs| - 1 && |ys| == |xs|
      invariant forall k :: 0 <= k < |xs| && i <= k <= j ==> ys[k] == xs[k]
      invariant forall k :: 0 <= k < |xs| && !(i <= k <= j) ==> ys[k] == xs[|xs| - 1 - k]
    {
      var front, back := ys[i], ys[j];
      ys := ys[i := back][j := front];
      i, j := i + 1, j - 1;
    }
  }

  /** A cursor over the open records, which are sorted ascending. */
  class SliceIter {
    const recs: seq<Record>
    const desc: bool
    var pos: int

    ghost predicate Valid()
      reads this
    {
      if desc then -1 <= pos < |recs| else 0 <= pos <= |recs|
    }

    ghost function Rest(): seq<Record>
      requires Valid()
      reads this
    {
      if desc then Reverse(recs[..pos + 1]) else recs[pos..]
    }

    constructor (recs: seq<Record>, desc: bool)
      ensures Valid() && Rest() == Directed(recs, desc)
    {
      this.recs, this.desc := recs, desc;
      pos := if desc then |recs| - 1 else 0;
      new;
      assert recs[..|recs|] == recs && recs[0..] == recs;
    }

    method Peek() returns (r: Option<Record>)
      requires Valid()
      ensures r == if Rest() == [] then None else Some(Rest()[0])
    {
      ReverseAt(recs[..if desc then pos + 1 else 0]);
      if pos < 0 || pos >= |recs| {
        return None;
      }
      r := Some(recs[pos]);
    }

    method Pop()
      requires Valid() && Rest() != []
      modifies this
      ensures Valid() && Rest() == old(Rest())[1..]
    {
      if desc {
        assert pos >= 0;
        assert recs[..pos + 1] == recs[..pos] + [recs[pos]];
        ReverseConcat(recs[..pos], [recs[pos]]);
        assert Reverse([recs[pos]]) == [recs[pos]] by { assert [recs[pos]][1..] == []; }
        pos := pos - 1;
      } else {
        pos := pos + 1;
      }
    }
  }

  // ---- What pruning leaves out ----

  /** Read and merged unless its first block to read is not readable. */
  predicate Consulted(seg: Segment, req: Request) {
    seg.meta.Overlaps(req.start, req.end) && Q.SegmentMatches(seg.meta, req.expr)
  }

  /** The failure that Run does not notice: the first block of a segment fails,
      so the cursor has no head and is not kept. */
  predicate Silent(seg: Segment, req: Request) {
    Consulted(seg, req) && Traversal(seg, req) != [] && !Traversal(seg, req)[0].readable
  }

  predicate Kept(seg: Segment, req: Request) {
    Consulted(seg, req) && Traversal(seg, req) != [] && Traversal(seg, req)[0].readable
  }

  /** What the kept cursors yield. */
  function KeptLists(catalog: seq<Segment>, req: Request): seq<seq<Record>> {
    if catalog == [] then []
    else
      var last := catalog[|catalog| - 1];
      KeptLists(catalog[..|catalog| - 1], req) + (if Kept(last, req) then [Contents(Traversal(last, req), req.desc)] else [])
  }

  /** Everything in the segments, but for those that fail silently. */
  function FullLists(catalog: seq<Segment>, req: Request): seq<seq<Record>> {
    if catalog == [] then []
    else
      var last := catalog[|catalog| - 1];
      FullLists(catalog[..|catalog| - 1], req) + (if Silent(last, req) then [] else [Directed(AllRecs(last.blocks), req.desc)])
  }

  lemma {:induction false} AllRecsConcat(a: seq<Block>, b: seq<Block>)
    ensures AllRecs(a + b) == AllRecs(a) + AllRecs(b)
  {
    if a == [] {
      assert a + b == b;
    } else {
      assert (a + b)[1..] == a[1..] + b;
      AllRecsConcat(a[1..], b);
    }
  }

  lemma AllRecsLast(bs: seq<Block>)
    requires bs != []
    ensures AllRecs(bs) == AllRecs(bs[..|bs| - 1]) + bs[|bs| - 1].recs
  {
    var last := bs[|bs| - 1];
    assert bs == bs[..|bs| - 1] + [last];
    AllRecsConcat(bs[..|bs| - 1], [last]);
    assert AllRecs([last]) == last.recs + AllRecs([]) by { assert [last][1..] == []; }
  }

  lemma {:induction false} ContentsForward(bs: seq<Block>)
    ensures Contents(bs, false) == AllRecs(bs)
  {
    if bs != [] {
      ContentsForward(bs[1..]);
    }
  }

  lemma {:induction false} ContentsBackward(bs: seq<Block>)
    ensures Contents(ReverseBlocks(bs), true) == Reverse(AllRecs(bs))
  {
    if bs != [] {
      var front, last := bs[..|bs| - 1], bs[|bs| - 1];
      ContentsBackward(front);
      AllRecsLast(bs);
      ReverseConcat(AllRecs(front), last.recs);
      assert ReverseBlocks(bs)[1..] == ReverseBlocks(front);
    }
  }

  lemma TraversalContents(seg: Segment, req: Request)
    ensures Contents(Traversal(seg, req), req.desc) == Directed(AllRecs(Chosen(seg.blocks, req.start, req.end)), req.desc)
  {
    var chosen := Chosen(seg.blocks, req.start, req.end);
    ContentsForward(chosen);
    ContentsBackward(chosen);
  }

  predicate NoneWanted(lib: Q.Library, req: Request, rs: seq<Record>) {
    forall r :: r in rs ==> !Wanted(lib, req, r)
  }

  /** No block out of range holds a wanted record. */
  predicate SkipsNothing(lib: Q.Library, req: Request, blocks: seq<Block>) {
    forall i :: 0 <= i < |blocks| && !blocks[i].meta.Overlaps(req.start, req.end) ==> NoneWanted(lib, req, blocks[i].recs)
  }

  lemma SkipsNothingLast(lib: Q.Library, req: Request, blocks: seq<Block>)
    requires blocks != []
    ensures var front, last := blocks[..|blocks| - 1], blocks[|blocks| - 1];
      SkipsNothing(lib, req, blocks) <==>
        SkipsNothing(lib, req, front) && (!last.meta.Overlaps(req.start, req.end) ==> NoneWanted(lib, req, last.recs))
  {
    hide NoneWanted;
    var front := blocks[..|blocks| - 1];
    forall i | 0 <= i < |front| ensures front[i] == blocks[i] {}
  }

  lemma FilterEmptyIff(lib: Q.Library, req: Request, rs: seq<Record>)
    ensures Filter(lib, req, rs) == [] <==> NoneWanted(lib, req, rs)
  {
    FilterMembers(lib, req, rs);
    if Filter(lib, req, rs) != [] { assert Filter(lib, req, rs)[0] in Filter(lib, req, rs); }
    if NoneWanted(lib, req, rs) { FilterNone(lib, req, rs); }
  }

  /** Skipping blocks keeps the wanted records exactly when none is in them, and
      otherwise there are fewer. */
  lemma {:induction false} ChosenIff(lib: Q.Library, req: Request, blocks: seq<Block>)
    ensures var some, all := Filter(lib, req, AllRecs(Chosen(blocks, req.start, req.end))), Filter(lib, req, AllRecs(blocks));
      && multiset(some) <= multiset(all) && |some| <= |all|
      && (SkipsNothing(lib, req, blocks) ==> some == all)
      && (|some| == |all| ==> SkipsNothing(lib, req, blocks))
  {
    hide Filter, AllRecs, NoneWanted, SkipsNothing;
    if blocks == [] {
      NothingSkipped(lib, req);
    } else {
      var front, last := blocks[..|blocks| - 1], blocks[|blocks| - 1];
      var chosen := Chosen(front, req.start, req.end);
      ChosenIff(lib, req, front);
      SkipsNothingLast(lib, req, blocks);
      FilterEmptyIff(lib, req, last.recs);
      AllRecsLast(blocks);
      FilterConcat(lib, req, AllRecs(front), last.recs);
      if last.meta.Overlaps(req.start, req.end) {
        AllRecsLast(chosen + [last]);
        assert (chosen + [last])[..|chosen|] == chosen;
        FilterConcat(lib, req, AllRecs(chosen), last.recs);
      } else {
        assert Chosen(blocks, req.start, req.end) == chosen;
      }
    }
  }

  lemma NothingSkipped(lib: Q.Library, req: Request)
    ensures SkipsNothing(lib, req, [])
  {
  }

  /** Blocks out of range hold no wanted record. */
  lemma ChosenSuffice(lib: Q.Library, req: Request, blocks: seq<Block>)
    requires forall i :: 0 <= i < |blocks| ==> BlockOk(blocks[i])
    ensures Filter(lib, req, AllRecs(Chosen(blocks, req.start, req.end))) == Filter(lib, req, AllRecs(blocks))
  {
    hide Filter, AllRecs, Chosen;
    ChosenIff(lib, req, blocks);
  }

  lemma {:induction false} ChosenSorted(blocks: seq<Block>, start: Time, end: Time)
    requires Sorted(AllRecs(blocks), false)
    ensures Sorted(AllRecs(Chosen(blocks, start, end)), false)
    ensures forall r :: r in AllRecs(Chosen(blocks, start, end)) ==> r in AllRecs(blocks)
  {
    if blocks != [] {
      var front, last := blocks[..|blocks| - 1], blocks[|blocks| - 1];
      var chosen := Chosen(front, start, end);
      AllRecsLast(blocks);
      SortedParts(AllRecs(front), last.recs);
      ChosenSorted(front, start, end);
      if last.meta.Overlaps(start, end) {
        assert (chosen + [last])[..|chosen|] == chosen;
        AllRecsLast(chosen + [last]);
        SortedJoin(AllRecs(front), AllRecs(chosen), last.recs);
      } else {
        assert Chosen(blocks, start, end) == chosen;
      }
    }
  }

  lemma SortedParts(a: seq<Record>, b: seq<Record>)
    requires Sorted(a + b, false)
    ensures Sorted(a, false) && Sorted(b, false)
    ensures forall x, y :: x in a && y in b ==> !Before(y, x, false)
  {
    var t := a + b;
    forall i, j | 0 <= i < j < |a| ensures !Before(a[j], a[i], false) {
      assert !Before(t[j], t[i], false);
    }
    forall i, j | 0 <= i < j < |b| ensures !Before(b[j], b[i], false) {
      assert !Before(t[|a| + j], t[|a| + i], false);
    }
    forall x, y | x in a && y in b ensures !Before(y, x, false) {
      var i :| 0 <= i < |a| && a[i] == x;
      var j :| 0 <= j < |b| && b[j] == y;
      assert !Before(t[|a| + j], t[i], false);
    }
  }

  lemma SortedJoin(a: seq<Record>, c: seq<Record>, b: seq<Record>)
    requires Sorted(c, false) && Sorted(b, false)
    requires forall r :: r in c ==> r in a
    requires forall x, y :: x in a && y in b ==> !Before(y, x, false)
    ensures Sorted(c + b, false)
  {
    var t := c + b;
    forall i, j | 0 <= i < j < |t| ensures !Before(t[j], t[i], false) {
      if i < |c| <= j {
        assert t[i] in c && t[j] in b;
      } else if j < |c| {
        assert t[i] == c[i] && t[j] == c[j];
      } else {
        assert t[i] == b[i - |c|] && t[j] == b[j - |c|];
      }
    }
  }

  lemma {:induction false} FilterReverse(lib: Q.Library, req: Request, rs: seq<Record>)
    ensures Filter(lib, req, Reverse(rs)) == Reverse(Filter(lib, req, rs))
  {
    if rs != [] {
      FilterReverse(lib, req, rs[1..]);
      FilterConcat(lib, req, Reverse(rs[1..]), [rs[0]]);
      assert [rs[0]][1..] == [] && Filter(lib, req, []) == [];
      if Wanted(lib, req, rs[0]) {
        var rest := Filter(lib, req, rs[1..]);
        assert ([rs[0]] + rest)[1..] == rest;
        assert Filter(lib, req, rs) == [rs[0]] + rest;
      } else {
        assert Filter(lib, req, rs) == Filter(lib, req, rs[1..]);
      }
    }
  }

  /** What is read of a segment is in reading order. */
  lemma TraversalSorted(seg: Segment, req: Request)
    requires SegmentShape(seg)
    ensures Sorted(Contents(Traversal(seg, req), req.desc), req.desc)
  {
    TraversalContents(seg, req);
    ChosenSorted(seg.blocks, req.start, req.end);
    DirectedSorted(AllRecs(Chosen(seg.blocks, req.start, req.end)), req.desc);
  }

  /** Skipping blocks changes nothing the query wants. */
  lemma ReadingSuffices(lib: Q.Library, req: Request, seg: Segment)
    requires SegmentOk(seg)
    ensures Filter(lib, req, Contents(Traversal(seg, req), req.desc)) == Filter(lib, req, Directed(AllRecs(seg.blocks), req.desc))
  {
    var chosen := AllRecs(Chosen(seg.blocks, req.start, req.end));
    TraversalContents(seg, req);
    ChosenSuffice(lib, req, seg.blocks);
    FilterReverse(lib, req, chosen);
    FilterReverse(lib, req, AllRecs(seg.blocks));
  }

  /** A segment that is not consulted holds nothing the query wants. */
  lemma NotConsultedIsEmpty(lib: Q.Library, req: Request, seg: Segment)
    requires SegmentOk(seg) && !Consulted(seg, req)
    ensures Filter(lib, req, Directed(AllRecs(seg.blocks), req.desc)) == []
  {
    var all := AllRecs(seg.blocks);
    forall r | r in all ensures !Wanted(lib, req, r) {
      if Wanted(lib, req, r) {
        Q.PruningIsSound(lib, seg.meta, req.expr, r);
      }
    }
    FilterNone(lib, req, all);
    FilterReverse(lib, req, all);
  }

  /** What a segment adds to the kept lists holds what the query wants of it. */
  lemma KeptEnough(lib: Q.Library, req: Request, seg: Segment)
    requires SegmentOk(seg)
    ensures Filter(lib, req, if Kept(seg, req) then Contents(Traversal(seg, req), req.desc) else [])
         == Filter(lib, req, if Silent(seg, req) then [] else Directed(AllRecs(seg.blocks), req.desc))
  {
    hide Consulted, Traversal, Sorted, AllRecs, Directed;
    ReadingSuffices(lib, req, seg);
    if !Consulted(seg, req) { NotConsultedIsEmpty(lib, req, seg); }
  }

  lemma ConcatMore(lists: seq<seq<Record>>, more: bool, last: seq<Record>)
    ensures Concat(lists + if more then [last] else []) == Concat(lists) + if more then last else []
  {
    if more {
      ConcatSnoc(lists, last);
    } else {
      assert lists + [] == lists && Concat(lists) + [] == Concat(lists);
    }
  }

  /** The kept cursors yield everything the query wants from the readable segments. */
  lemma {:induction false} KeptSuffice(lib: Q.Library, req: Request, catalog: seq<Segment>)
    requires forall i :: 0 <= i < |catalog| ==> SegmentOk(catalog[i])
    ensures Filter(lib, req, Concat(KeptLists(catalog, req))) == Filter(lib, req, Concat(FullLists(catalog, req)))
  {
    hide Filter, Concat, Kept, Silent, Contents, Directed, Traversal, AllRecs, SegmentOk, Sorted;
    if catalog != [] {
      var front, last := catalog[..|catalog| - 1], catalog[|catalog| - 1];
      KeptSuffice(lib, req, front);
      var kept, full := KeptLists(front, req), FullLists(front, req);
      var contents, all := Contents(Traversal(last, req), req.desc), Directed(AllRecs(last.blocks), req.desc);
      KeptEnough(lib, req, last);
      ConcatMore(kept, Kept(last, req), contents);
      ConcatMore(full, !Silent(last, req), all);
      FilterConcat(lib, req, Concat(kept), if Kept(last, req) then contents else []);
      FilterConcat(lib, req, Concat(full), if Silent(last, req) then [] else all);
    }
  }

  lemma {:induction false} KeptSorted(catalog: seq<Segment>, req: Request)
    requires forall i :: 0 <= i < |catalog| ==> SegmentShape(catalog[i])
    ensures AllSorted(KeptLists(catalog, req), req.desc)
  {
    hide Kept, Contents, Traversal, SegmentShape, Sorted;
    if catalog != [] {
      KeptSorted(catalog[..|catalog| - 1], req);
      TraversalSorted(catalog[|catalog| - 1], req);
    }
  }

  // ---- What is left out of any segment ----

  /** A block that is not read: out of range, or in a segment that is not kept. */
  predicate Unread(seg: Segment, req: Request, b: Block) {
    !Kept(seg, req) || !b.meta.Overlaps(req.start, req.end)
  }

  /** No block that is not read holds a wanted record. */
  predicate LosesNothing(lib: Q.Library, req: Request, seg: Segment) {
    forall i :: 0 <= i < |seg.blocks| && Unread(seg, req, seg.blocks[i]) ==> NoneWanted(lib, req, seg.blocks[i].recs)
  }

  lemma {:induction false} NoneWantedBlocks(lib: Q.Library, req: Request, blocks: seq<Block>)
    ensures NoneWanted(lib, req, AllRecs(blocks)) <==> forall i :: 0 <= i < |blocks| ==> NoneWanted(lib, req, blocks[i].recs)
  {
    hide Wanted;
    if blocks != [] {
      var tail := blocks[1..];
      NoneWantedBlocks(lib, req, tail);
      forall i | 0 <= i < |tail| ensures tail[i] == blocks[i + 1] {}
    }
  }

  lemma FilterDirected(lib: Q.Library, req: Request, rs: seq<Record>)
    ensures Filter(lib, req, Directed(rs, req.desc)) == Directed(Filter(lib, req, rs), req.desc)
  {
    FilterReverse(lib, req, rs);
  }

  lemma {:induction false} SameRecords(rs: seq<Record>, desc: bool)
    ensures multiset(Directed(rs, desc)) == multiset(rs) && |Directed(rs, desc)| == |rs|
  {
    if desc && rs != [] {
      SameRecords(rs[1..], desc);
      assert rs == [rs[0]] + rs[1..];
    }
  }

  /** What is read of a segment has the wanted records exactly when no block that
      is not read holds any, and otherwise fewer. */
  lemma SegmentReadsIff(lib: Q.Library, req: Request, seg: Segment)
    ensures
      var some := Filter(lib, req, if Kept(seg, req) then Contents(Traversal(seg, req), req.desc) else []);
      var all := Filter(lib, req, Directed(AllRecs(seg.blocks), req.desc));
      && multiset(some) <= multiset(all) && |some| <= |all|
      && (LosesNothing(lib, req, seg) ==> some == all)
      && (|some| == |all| ==> LosesNothing(lib, req, seg))
  {
    hide Filter, AllRecs, NoneWanted, Traversal, Contents, Chosen, Kept, Directed;
    var chosen, all := AllRecs(Chosen(seg.blocks, req.start, req.end)), AllRecs(seg.blocks);
    FilterDirected(lib, req, all);
    SameRecords(Filter(lib, req, all), req.desc);
    if Kept(seg, req) {
      TraversalContents(seg, req);
      ChosenIff(lib, req, seg.blocks);
      FilterDirected(lib, req, chosen);
      SameRecords(Filter(lib, req, chosen), req.desc);
    } else {
      NoneWantedBlocks(lib, req, seg.blocks);
      FilterEmptyIff(lib, req, all);
      FilterEmptyIff(lib, req, []);
      NothingWanted(lib, req);
    }
  }

  lemma NothingWanted(lib: Q.Library, req: Request)
    ensures NoneWanted(lib, req, [])
  {
  }

  /** With bounds and a summary that cover its records a segment loses something
      only by failing silently. */
  lemma GoodLosesIff(lib: Q.Library, req: Request, seg: Segment)
    requires SegmentOk(seg)
    ensures LosesNothing(lib, req, seg) <==> (Silent(seg, req) ==> NoneWanted(lib, req, AllRecs(seg.blocks)))
  {
    hide Filter, AllRecs, NoneWanted, Traversal, Contents, Directed, Consulted, LosesNothing;
    var all := Directed(AllRecs(seg.blocks), req.desc);
    KeptEnough(lib, req, seg);
    SegmentReadsIff(lib, req, seg);
    FilterDirected(lib, req, AllRecs(seg.blocks));
    SameRecords(Filter(lib, req, AllRecs(seg.blocks)), req.desc);
    FilterEmptyIff(lib, req, AllRecs(seg.blocks));
    FilterEmptyIff(lib, req, []);
    NothingWanted(lib, req);
  }
}
