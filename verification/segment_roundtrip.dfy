/**
  What the segment reader gets back from what the writer wrote: the layout of the
  file, its index and summary, and the records themselves.
 */
module SegmentRoundTrip {
  import opened Model
  import opened RecordLists
  import opened TimeOrder
  import opened Wire
  import opened SegmentFormat
  import opened SegmentWriter
  import opened SegmentReader
  import Q = Query
  import Planner

  /** Seals a batch: appends every record and finishes. */
  method WriteAll(c: Codec, created: int, rs: seq<Record>, target: int)
    returns (ok: bool, w: seq<byte>, meta: Option<SegmentMeta>)
    requires target < TWO_31
    ensures ok <==> Encodable(c, rs)
    ensures ok ==>
      && meta.Some?
      && Described(c, Split(c, rs, target), rs, meta.value)
      && meta.value.sizeBytes == |w|
      && w == Image(c, Header(created), rs, target, SummaryOf(meta.value))
  {
    hide Tracks, Place, Header, Assemble;
    var sw := new Writer(c, created, target);
    for i := 0 to |rs|
      invariant fresh(sw) && sw.Valid() && Encodable(c, rs[..i])
      invariant sw.codec == c && sw.header == Header(created) && sw.blockTarget == target
      invariant sw.recs == rs[..i] && sw.parts == Split(c, rs[..i], target)
    {
      SplitSnoc(c, rs[..i], rs[i], target);
      assert rs[..i + 1] == rs[..i] + [rs[i]];
      ok := sw.Append(rs[i]);
      if !ok {
        return false, [], None;
      }
    }
    assert rs[..|rs|] == rs;
    ok := true;
    meta := sw.Finish();
    w := sw.state.file.w;
  }

  // ---- Layout ----

  lemma {:induction false} MetasAt(c: Codec, gs: seq<seq<Record>>, i: nat)
    requires i < |gs|
    ensures Metas(c, gs)[i] == MetaOf(c, gs[i], HEADER_SIZE + |Frames(c, gs[..i])|)
  {
    var front := gs[..|gs| - 1];
    if i < |front| {
      MetasAt(c, front, i);
      assert front[..i] == gs[..i];
    }
  }

  /** Where a block's bytes are. */
  lemma {:induction false} FrameAt(c: Codec, gs: seq<seq<Record>>, i: nat)
    requires i < |gs|
    ensures var at, comp := |Frames(c, gs[..i])|, c.Compress(Text(c, gs[i]));
      at + |comp| <= |Frames(c, gs)| && Frames(c, gs)[at..at + |comp|] == comp
  {
    if i == 0 {
      assert gs[..0] == [];
    } else {
      FrameAt(c, gs[1..], i - 1);
      assert gs[..i][1..] == gs[1..][..i - 1];
      assert gs[1..][i - 1] == gs[i];
      var head := c.Compress(Text(c, gs[0]));
      assert Frames(c, gs) == head + Frames(c, gs[1..]);
      assert Frames(c, gs[..i]) == head + Frames(c, gs[1..][..i - 1]);
    }
  }

  lemma BlockSpan(c: Codec, gs: seq<seq<Record>>, i: nat)
    requires i < |gs|
    ensures var m := Metas(c, gs)[i];
      && m.fileOffset == HEADER_SIZE + |Frames(c, gs[..i])|
      && m.fileOffset + m.compLen == HEADER_SIZE + |Frames(c, gs[..i + 1])|
  {
    hide Metas, Frames, Text;
    MetasAt(c, gs, i);
    FramesSnoc(c, gs[..i], gs[i]);
    assert gs[..i + 1] == gs[..i] + [gs[i]];
  }

  lemma FramesEnds(c: Codec, gs: seq<seq<Record>>)
    ensures Frames(c, gs[..0]) == [] && Frames(c, gs[..|gs|]) == Frames(c, gs)
  {
    assert gs[..|gs|] == gs;
  }

  /** The blocks tile the file from the header to the index. */
  lemma BlocksTile(c: Codec, gs: seq<seq<Record>>)
    ensures var ms := Metas(c, gs);
      && (gs != [] ==> ms[0].fileOffset == HEADER_SIZE)
      && (forall i :: 0 <= i < |ms| - 1 ==> ms[i].fileOffset + ms[i].compLen == ms[i + 1].fileOffset)
      && (gs != [] ==> ms[|ms| - 1].fileOffset + ms[|ms| - 1].compLen == HEADER_SIZE + |Frames(c, gs)|)
  {
    hide Metas, Frames;
    FramesEnds(c, gs);
    forall i | 0 <= i < |gs| - 1
      ensures Metas(c, gs)[i].fileOffset + Metas(c, gs)[i].compLen == Metas(c, gs)[i + 1].fileOffset
    {
      BlockSpan(c, gs, i);
      BlockSpan(c, gs, i + 1);
    }
    if gs != [] {
      BlockSpan(c, gs, 0);
      BlockSpan(c, gs, |gs| - 1);
    }
  }

  /** Block counts sum to the number of records. */
  lemma {:induction false} CountsSum(c: Codec, gs: seq<seq<Record>>)
    ensures CountSum(Metas(c, gs)) == |Concat(gs)|
  {
    if gs != [] {
      var front, last := gs[..|gs| - 1], gs[|gs| - 1];
      CountsSum(c, front);
      ConcatSnoc(front, last);
      assert gs == front + [last];
      CountSumSnoc(Metas(c, front), MetaOf(c, last, HEADER_SIZE + |Frames(c, front)|));
    }
  }

  lemma {:induction false} CountSumSnoc(bs: seq<BlockMeta>, b: BlockMeta)
    ensures CountSum(bs + [b]) == CountSum(bs) + b.recordCount
  {
    if bs == [] {
      assert ([b])[1..] == [];
    } else {
      CountSumSnoc(bs[1..], b);
      assert (bs + [b])[1..] == bs[1..] + [b];
    }
  }

  lemma GroupsOk(c: Codec, rs: seq<Record>, target: int)
    requires Encodable(c, rs)
    ensures forall i :: 0 <= i < |Groups(c, rs, target)| ==> BlockGood(c, Groups(c, rs, target)[i], target)
    ensures Concat(Groups(c, rs, target)) == rs
  {
    SplitOk(c, rs, target);
    SplitKeepsAll(c, rs, target);
  }

  /** Each block's bounds are exact, and it is within the target or one record;
      under a target within an int32 its count is too. */
  lemma Layout(c: Codec, rs: seq<Record>, target: int, i: nat)
    requires Encodable(c, rs) && i < |Groups(c, rs, target)|
    ensures var g, m := Groups(c, rs, target)[i], Metas(c, Groups(c, rs, target))[i];
      && m.recordCount == |g| > 0
      && (m.uncompLen <= target || m.recordCount == 1)
      && (target < TWO_31 ==> m.recordCount < TWO_31)
      && (forall r :: r in g ==> m.minTS <= r.timestamp <= m.maxTS)
      && (exists r :: r in g && r.timestamp == m.minTS)
      && (exists r :: r in g && r.timestamp == m.maxTS)
  {
    var g := Groups(c, rs, target)[i];
    GroupsOk(c, rs, target);
    assert BlockGood(c, g, target);
    MetasAt(c, Groups(c, rs, target), i);
    BoundsAreExact(g);
    if target < TWO_31 {
      CountFits(c, g, target);
    }
  }

  // ---- Index and footer ----

  /** A block's index entry after a trip through 64- and 32-bit words. */
  function Stored(b: BlockMeta): BlockMeta {
    BlockMeta(
      Signed64(b.fileOffset), Signed64(b.compLen), Signed64(b.uncompLen),
      Signed64(b.minTS), Signed64(b.maxTS), Signed32(b.recordCount))
  }

  function StoredAll(bs: seq<BlockMeta>): (out: seq<BlockMeta>)
    ensures |out| == |bs|
    ensures forall i :: 0 <= i < |bs| ==> out[i] == Stored(bs[i])
  {
    if bs == [] then [] else [Stored(bs[0])] + StoredAll(bs[1..])
  }

  lemma Signed64Twice(x: int)
    ensures Signed64(Unsigned64(x)) == Signed64(x)
    ensures InInt64(x) <==> Signed64(x) == x
  {
  }

  lemma Word64At(s: seq<byte>, off: nat, x: int)
    requires off + 8 <= |s| && s[off..off + 8] == BigEndian(Unsigned64(x), 8)
    ensures Signed64(Field(s, off, 8)) == Signed64(x)
  {
    Word64(x);
    Signed64Twice(x);
  }

  lemma Word32At(s: seq<byte>, off: nat, x: int)
    requires off + 4 <= |s| && s[off..off + 4] == BigEndian(Unsigned32(x), 4)
    ensures Field(s, off, 4) == Unsigned32(x)
    ensures Signed32(Field(s, off, 4)) == Signed32(x)
  {
    Word32(x);
  }

  lemma EntryBack(b: BlockMeta)
    ensures Unpack(Entry(b)) == Stored(b)
  {
    var e := Entry(b);
    Word64At(e, 0, b.fileOffset);
    Word64At(e, 8, b.compLen);
    Word64At(e, 16, b.uncompLen);
    Word64At(e, 24, b.minTS);
    Word64At(e, 32, b.maxTS);
    Word32At(e, 40, b.recordCount);
  }

  lemma {:induction false} IndexBack(bs: seq<BlockMeta>)
    ensures Unindex(Index(bs), |bs|) == StoredAll(bs)
  {
    if bs != [] {
      EntryBack(bs[0]);
      IndexBack(bs[1..]);
      var idx := Index(bs);
      assert idx[..ENTRY_SIZE] == Entry(bs[0]);
      assert idx[ENTRY_SIZE..] == Index(bs[1..]);
    }
  }

  lemma FooterBack(f: FooterData)
    ensures Unfoot(Footer(f)) == FooterData(
      Signed64(f.indexOffset), Unsigned32(f.blockCount), Signed64(f.summaryOffset), Unsigned32(f.summaryLen),
      Signed64(f.segMin), Signed64(f.segMax), Unsigned32(f.crc))
    ensures Footer(f)[FOOTER_SIZE - 8..] == MAGIC_FOOT
  {
    hide BigEndian, Unsigned64, Unsigned32, Signed64, Signed32, Word;
    var s := Footer(f);
    Word64At(s, 0, f.indexOffset);
    Word32At(s, 8, f.blockCount);
    Word64At(s, 12, f.summaryOffset);
    Word32At(s, 20, f.summaryLen);
    Word64At(s, 24, f.segMin);
    Word64At(s, 32, f.segMax);
    Word32At(s, 40, f.crc);
  }

  // ---- Open ----

  /** The sizes a file's own words can express. */
  predicate WithinWords(c: Codec, file: seq<byte>, gs: seq<seq<Record>>, sum: Summary) {
    && |file| < TWO_63
    && |gs| < TWO_32
    && |c.Compress(c.EncodeSummary(sum))| < TWO_32
    && (forall i :: 0 <= i < |gs| ==> |Text(c, gs[i])| < TWO_63)
  }

  /** What Open makes of an assembled file. */
  function Reopened(c: Codec, file: seq<byte>, gs: seq<seq<Record>>, sum: Summary, segMin: Time, segMax: Time): Reader {
    Reader(file, StoredAll(Metas(c, gs)), sum, Signed64(segMin), Signed64(segMax))
  }

  lemma PlacedOk(f: FooterData, size: int)
    requires HEADER_SIZE <= f.indexOffset && 0 <= f.blockCount && 0 <= f.summaryLen
    requires f.summaryOffset == f.indexOffset + f.blockCount * ENTRY_SIZE
    requires f.summaryOffset + f.summaryLen + FOOTER_SIZE == size < TWO_63
    ensures Placed(f, size)
  {
    Signed64Twice(f.indexOffset + f.blockCount * ENTRY_SIZE);
    Signed64Twice(f.summaryOffset + f.summaryLen);
  }

  lemma FooterExact(f: FooterData)
    requires 0 <= f.indexOffset < TWO_63 && 0 <= f.summaryOffset < TWO_63
    requires 0 <= f.blockCount < TWO_32 && 0 <= f.summaryLen < TWO_32 && 0 <= f.crc < TWO_32
    ensures Unfoot(Footer(f)) == f.(segMin := Signed64(f.segMin), segMax := Signed64(f.segMax))
    ensures Footer(f)[FOOTER_SIZE - 8..] == MAGIC_FOOT
  {
    hide Footer, Unfoot;
    FooterBack(f);
    Signed64Twice(f.indexOffset);
    Signed64Twice(f.summaryOffset);
  }

  /** Open's checks pass on a footer that says where things are. */
  lemma OpenPlaced(c: Codec, file: seq<byte>, foot: seq<byte>, g: FooterData, idx: seq<byte>, comp: seq<byte>)
    requires |file| >= HEADER_SIZE + FOOTER_SIZE
    requires foot == file[|file| - FOOTER_SIZE..] && foot[FOOTER_SIZE - 8..] == MAGIC_FOOT && Unfoot(foot) == g
    requires Placed(g, |file|)
    requires 0 <= g.blockCount && |idx| == g.blockCount * ENTRY_SIZE
    requires ReadAt(file, g.indexOffset, g.blockCount * ENTRY_SIZE) == Some(idx)
    requires ReadAt(file, g.summaryOffset, g.summaryLen) == Some(comp)
    ensures OpenFile(c, file) == OpenWith(c, file, g, idx, comp)
  {
  }

  /** Open accepts every finished file, and recovers its index and summary. */
  lemma OpenFinished(c: Codec, header: seq<byte>, gs: seq<seq<Record>>, sum: Summary, segMin: Time, segMax: Time)
    requires c.Lawful() && |header| == HEADER_SIZE
    ensures var file := Assemble(c, header, gs, sum, segMin, segMax);
      WithinWords(c, file, gs, sum) ==> OpenFile(c, file) == Opened(Reopened(c, file, gs, sum, segMin, segMax))
  {
    if WithinWords(c, Assemble(c, header, gs, sum, segMin, segMax), gs, sum) {
      OpenAssembled(c, header, gs, sum, segMin, segMax);
    }
  }

  lemma OpenAssembled(c: Codec, header: seq<byte>, gs: seq<seq<Record>>, sum: Summary, segMin: Time, segMax: Time)
    requires c.Lawful() && |header| == HEADER_SIZE
    requires WithinWords(c, Assemble(c, header, gs, sum, segMin, segMax), gs, sum)
    ensures var file := Assemble(c, header, gs, sum, segMin, segMax);
      OpenFile(c, file) == Opened(Reopened(c, file, gs, sum, segMin, segMax))
  {
    var front := header + Frames(c, gs);
    var ms := Metas(c, gs);
    var idx := Index(ms);
    var comp := c.Compress(c.EncodeSummary(sum));
    hide Footer, Unfoot, Index, Unindex, Metas, Frames, StoredAll;
    var f := FooterData(|front|, |ms|, |front| + |idx|, |comp|, segMin, segMax, c.Crc(idx + comp));
    var file := Assemble(c, header, gs, sum, segMin, segMax);
    assert file == front + (idx + comp + Footer(f));
    Slices(front, idx, comp, Footer(f));
    FooterExact(f);
    var g := Unfoot(Footer(f));
    PlacedOk(g, |file|);
    OpenPlaced(c, file, Footer(f), g, idx, comp);
    IndexBack(ms);
  }

  lemma Slices(a: seq<byte>, b: seq<byte>, d: seq<byte>, e: seq<byte>)
    ensures var s := a + (b + d + e);
      && s[|a|..|a| + |b|] == b
      && s[|a| + |b|..|a| + |b| + |d|] == d
      && s[|s| - |e|..] == e
  {
  }

  /** The bounds come back exactly when they fit a 64-bit nanosecond count: not,
      in particular, the zero times of a segment without records. */
  lemma BoundsBackIff(c: Codec, file: seq<byte>, gs: seq<seq<Record>>, sum: Summary, segMin: Time, segMax: Time)
    ensures var rd := Reopened(c, file, gs, sum, segMin, segMax);
      rd.segMin == segMin && rd.segMax == segMax <==> InInt64(segMin) && InInt64(segMax)
    ensures !InInt64(ZERO_TIME)
  {
    Signed64Twice(segMin);
    Signed64Twice(segMax);
  }

  /** The whole index comes back when every block's bounds fit. */
  lemma IndexBackIff(c: Codec, header: seq<byte>, rs: seq<Record>, target: int, sum: Summary)
    requires Encodable(c, rs) && target < TWO_31 && |header| == HEADER_SIZE
    ensures var ms := Metas(c, Groups(c, rs, target));
      WithinWords(c, Image(c, header, rs, target, sum), Groups(c, rs, target), sum) ==>
      (StoredAll(ms) == ms <==> forall i :: 0 <= i < |ms| ==> InInt64(ms[i].minTS) && InInt64(ms[i].maxTS))
  {
    if WithinWords(c, Image(c, header, rs, target, sum), Groups(c, rs, target), sum) {
      IndexStored(c, header, rs, target, sum);
    }
  }

  lemma IndexStored(c: Codec, header: seq<byte>, rs: seq<Record>, target: int, sum: Summary)
    requires Encodable(c, rs) && target < TWO_31 && |header| == HEADER_SIZE
    requires WithinWords(c, Image(c, header, rs, target, sum), Groups(c, rs, target), sum)
    ensures var ms := Metas(c, Groups(c, rs, target));
      StoredAll(ms) == ms <==> forall i :: 0 <= i < |ms| ==> InInt64(ms[i].minTS) && InInt64(ms[i].maxTS)
  {
    var gs := Groups(c, rs, target);
    var ms := Metas(c, gs);
    forall i | 0 <= i < |ms|
      ensures Stored(ms[i]) == ms[i] <==> InInt64(ms[i].minTS) && InInt64(ms[i].maxTS)
    {
      Layout(c, rs, target, i);
      StoredIff(c, gs, i);
    }
  }

  lemma StoredIff(c: Codec, gs: seq<seq<Record>>, i: nat)
    requires i < |gs| && HEADER_SIZE + |Frames(c, gs)| < TWO_63
    requires |gs[i]| < TWO_31 && |Text(c, gs[i])| < TWO_63
    ensures var m := Metas(c, gs)[i]; Stored(m) == m <==> InInt64(m.minTS) && InInt64(m.maxTS)
  {
    MetasAt(c, gs, i);
    FrameAt(c, gs, i);
    StoredFits(Metas(c, gs)[i]);
  }

  lemma StoredFits(m: BlockMeta)
    requires 0 <= m.fileOffset < TWO_63 && 0 <= m.compLen < TWO_63 && 0 <= m.uncompLen < TWO_63
    requires 0 <= m.recordCount < TWO_31
    ensures Stored(m) == m <==> InInt64(m.minTS) && InInt64(m.maxTS)
  {
    Signed64Twice(m.fileOffset);
    Signed64Twice(m.compLen);
    Signed64Twice(m.uncompLen);
    Signed64Twice(m.minTS);
    Signed64Twice(m.maxTS);
  }

  // ---- Records ----

  /** Every line, with its newline, fits the scanner. */
  predicate Short(c: Codec, rs: seq<Record>) {
    forall i :: 0 <= i < |rs| ==> |Line(c, rs[i])| <= MAX_TOKEN
  }

  lemma {:induction false} NewlineAfter(line: seq<byte>, rest: seq<byte>)
    requires NEWLINE !in line
    ensures NewlineAt(line + [NEWLINE] + rest) == |line|
  {
    var raw := line + [NEWLINE] + rest;
    if line != [] {
      assert raw[1..] == line[1..] + [NEWLINE] + rest;
      NewlineAfter(line[1..], rest);
    }
  }

  lemma ReadOneLine(c: Codec, r: Record, rest: seq<byte>)
    requires c.Lawful() && c.Encode(r).Some?
    ensures ReadLines(c, Line(c, r) + rest)
         == if |Line(c, r)| <= MAX_TOKEN then Lines([r] + ReadLines(c, rest).recs, ReadLines(c, rest).ok) else Lines([], false)
  {
    var line := c.Encode(r).value;
    assert OneLine(line);
    NewlineAfter(line, rest);
    var raw := Line(c, r) + rest;
    assert raw == line + [NEWLINE] + rest;
    assert raw[..|line|] == line;
    assert raw[|line| + 1..] == rest;
    assert DropCR(line) == line;
  }

  /** A block's text reads back whole exactly when every line fits the scanner. */
  lemma {:induction false} TextBackIff(c: Codec, g: seq<Record>)
    requires c.Lawful() && Encodable(c, g)
    ensures ReadLines(c, Text(c, g)).ok <==> Short(c, g)
    ensures Short(c, g) ==> ReadLines(c, Text(c, g)).recs == g
  {
    hide ReadLines, Line, Short;
    if g == [] {
      NoText(c);
    } else {
      TextBackIff(c, g[1..]);
      ReadOneLine(c, g[0], Text(c, g[1..]));
      assert g == [g[0]] + g[1..];
      ShortSplits(c, [g[0]], g[1..]);
      ShortOne(c, g[0]);
    }
  }

  lemma NoText(c: Codec)
    ensures ReadLines(c, []) == Lines([], true) && Short(c, [])
  {
  }

  lemma ShortOne(c: Codec, r: Record)
    ensures Short(c, [r]) <==> |Line(c, r)| <= MAX_TOKEN
  {
    assert [r][0] == r;
  }

  lemma ShortSplits(c: Codec, a: seq<Record>, b: seq<Record>)
    ensures Short(c, a + b) <==> Short(c, a) && Short(c, b)
  {
    var s := a + b;
    if Short(c, s) {
      forall i | 0 <= i < |a| ensures |Line(c, a[i])| <= MAX_TOKEN { assert s[i] == a[i]; }
      forall i | 0 <= i < |b| ensures |Line(c, b[i])| <= MAX_TOKEN { assert s[|a| + i] == b[i]; }
    }
  }

  lemma SliceWithin(a: seq<byte>, b: seq<byte>, d: seq<byte>, lo: nat, n: nat)
    requires lo + n <= |b|
    ensures (a + b + d)[|a| + lo..|a| + lo + n] == b[lo..lo + n]
  {
  }

  /** ReadBlock finds exactly the bytes the writer put there. */
  lemma BlockBack(c: Codec, header: seq<byte>, gs: seq<seq<Record>>, sum: Summary, segMin: Time, segMax: Time, i: nat)
    requires c.Lawful() && |header| == HEADER_SIZE && i < |gs|
    requires WithinWords(c, Assemble(c, header, gs, sum, segMin, segMax), gs, sum)
    ensures var file := Assemble(c, header, gs, sum, segMin, segMax);
      BlockLines(c, Reopened(c, file, gs, sum, segMin, segMax), i) == ReadLines(c, Text(c, gs[i]))
  {
    hide Metas, Frames, ReadLines, Text, Tail, Index, Stored, Entry;
    var file := Assemble(c, header, gs, sum, segMin, segMax);
    var comp, at := c.Compress(Text(c, gs[i])), |Frames(c, gs[..i])|;
    MetasAt(c, gs, i);
    FrameAt(c, gs, i);
    StoredSpan(Metas(c, gs)[i]);
    SliceWithin(header, Frames(c, gs), file[HEADER_SIZE + |Frames(c, gs)|..], at, |comp|);
    assert file == header + Frames(c, gs) + file[HEADER_SIZE + |Frames(c, gs)|..];
    assert ReadAt(file, HEADER_SIZE + at, |comp|) == Some(comp);
  }

  lemma StoredSpan(m: BlockMeta)
    requires 0 <= m.fileOffset < TWO_63 && 0 <= m.compLen < TWO_63
    ensures Stored(m).fileOffset == m.fileOffset && Stored(m).compLen == m.compLen
  {
    Signed64Twice(m.fileOffset);
    Signed64Twice(m.compLen);
  }

  /** The first n blocks read in turn. */
  function ReadAll(c: Codec, rd: Reader, n: nat): Lines {
    if n == 0 then Lines([], true)
    else
      var front, last := ReadAll(c, rd, n - 1), BlockLines(c, rd, n - 1);
      Lines(front.recs + last.recs, front.ok && last.ok)
  }

  lemma {:induction false} BlocksBackIff(
    c: Codec, header: seq<byte>, gs: seq<seq<Record>>, sum: Summary, segMin: Time, segMax: Time, n: nat)
    requires c.Lawful() && |header| == HEADER_SIZE && n <= |gs|
    requires forall i :: 0 <= i < |gs| ==> Encodable(c, gs[i])
    requires WithinWords(c, Assemble(c, header, gs, sum, segMin, segMax), gs, sum)
    ensures var got := ReadAll(c, Reopened(c, Assemble(c, header, gs, sum, segMin, segMax), gs, sum, segMin, segMax), n);
      && (got.ok <==> Short(c, Concat(gs[..n])))
      && (got.ok ==> got.recs == Concat(gs[..n]))
  {
    hide BlockLines, Reopened, Assemble, WithinWords, ReadLines, Short;
    if n == 0 {
      NothingToRead(c, gs);
    } else {
      BlocksBackIff(c, header, gs, sum, segMin, segMax, n - 1);
      BlockBack(c, header, gs, sum, segMin, segMax, n - 1);
      TextBackIff(c, gs[n - 1]);
      assert gs[..n] == gs[..n - 1] + [gs[n - 1]];
      ConcatSnoc(gs[..n - 1], gs[n - 1]);
      ShortSplits(c, Concat(gs[..n - 1]), gs[n - 1]);
    }
  }

  lemma NothingToRead(c: Codec, gs: seq<seq<Record>>)
    ensures Concat(gs[..0]) == [] && Short(c, [])
  {
  }

  /** What a reader gets of a file of these records. */
  ghost predicate ReadsBack(c: Codec, file: seq<byte>, rs: seq<Record>, gs: seq<seq<Record>>, sum: Summary) {
    var got := OpenFile(c, file);
    && got.Opened?
    && got.reader.summary == sum
    && got.reader.blocks == StoredAll(Metas(c, gs))
    && (ReadAll(c, got.reader, |gs|).ok <==> Short(c, rs))
    && (Short(c, rs) ==> ReadAll(c, got.reader, |gs|).recs == rs)
  }

  /** Write, open, read: the appended sequence comes back exactly when every line
      fits the scanner, whatever the block target. */
  lemma RoundTripIff(c: Codec, header: seq<byte>, rs: seq<Record>, target: int, sum: Summary)
    requires c.Lawful() && Encodable(c, rs) && |header| == HEADER_SIZE
    ensures var gs, file := Groups(c, rs, target), Image(c, header, rs, target, sum);
      WithinWords(c, file, gs, sum) ==> ReadsBack(c, file, rs, gs, sum)
  {
    hide Groups, Assemble, WithinWords, ReadsBack;
    var gs := Groups(c, rs, target);
    GroupsOk(c, rs, target);
    forall i | 0 <= i < |gs| ensures Encodable(c, gs[i]) {
      assert BlockGood(c, gs[i], target);
    }
    if WithinWords(c, Image(c, header, rs, target, sum), gs, sum) {
      FileReadsBack(c, header, gs, sum, Earliest(rs), Latest(rs));
    }
  }

  lemma FileReadsBack(c: Codec, header: seq<byte>, gs: seq<seq<Record>>, sum: Summary, segMin: Time, segMax: Time)
    requires c.Lawful() && |header| == HEADER_SIZE && forall i :: 0 <= i < |gs| ==> Encodable(c, gs[i])
    requires WithinWords(c, Assemble(c, header, gs, sum, segMin, segMax), gs, sum)
    ensures ReadsBack(c, Assemble(c, header, gs, sum, segMin, segMax), Concat(gs), gs, sum)
  {
    hide ReadAll, Metas, Assemble, OpenFile, Short, StoredAll, WithinWords, Concat;
    OpenFinished(c, header, gs, sum, segMin, segMax);
    BlocksBackIff(c, header, gs, sum, segMin, segMax, |gs|);
    assert gs[..|gs|] == gs;
  }

  // ---- What the query path relies on ----

  /** The blocks as a reader of the file has them: bounds as the index stores them. */
  function QueryBlocks(c: Codec, gs: seq<seq<Record>>): (bs: seq<Planner.Block>)
    ensures |bs| == |gs|
    ensures forall i :: 0 <= i < |gs| ==> bs[i] == Planner.Block(Stored(Metas(c, gs)[i]), gs[i], Short(c, gs[i]))
  {
    seq(|gs|, i requires 0 <= i < |gs| => Planner.Block(Stored(Metas(c, gs)[i]), gs[i], Short(c, gs[i])))
  }

  lemma {:induction false} AllRecsAre(bs: seq<Planner.Block>, gs: seq<seq<Record>>)
    requires |bs| == |gs| && forall i :: 0 <= i < |gs| ==> bs[i].recs == gs[i]
    ensures Planner.AllRecs(bs) == Concat(gs)
  {
    if gs != [] {
      AllRecsAre(bs[1..], gs[1..]);
    }
  }

  /** The metadata's bounds and summary cover every record. */
  lemma DescribesEach(c: Codec, p: Parts, rs: seq<Record>, m: SegmentMeta, r: Record)
    requires Described(c, p, rs, m) && r in rs
    ensures m.minTS <= r.timestamp <= m.maxTS && Q.Summarises(m, r)
  {
    BoundsAreExact(rs);
    assert r.namespace in Contributed(r, Namespace);
    assert r.pod in Contributed(r, Pod);
    assert r.node in Contributed(r, Node);
    assert r.container in Contributed(r, Container);
  }

  predicate StampsFit(rs: seq<Record>) {
    forall r :: r in rs ==> InInt64(r.timestamp)
  }

  /** A block's bounds cover its records once they are read back exactly when every
      timestamp fits a 64-bit nanosecond count. */
  lemma StoredBoundsIff(m: BlockMeta, recs: seq<Record>, readable: bool)
    requires recs != [] && forall r :: r in recs ==> m.minTS <= r.timestamp <= m.maxTS
    requires (exists r :: r in recs && r.timestamp == m.minTS) && (exists r :: r in recs && r.timestamp == m.maxTS)
    ensures Planner.BlockOk(Planner.Block(Stored(m), recs, readable)) <==> StampsFit(recs)
  {
    var lo :| lo in recs && lo.timestamp == m.minTS;
    var hi :| hi in recs && hi.timestamp == m.maxTS;
    Signed64Twice(m.minTS);
    Signed64Twice(m.maxTS);
  }

  lemma {:induction false} StampsFitParts(gs: seq<seq<Record>>)
    ensures StampsFit(Concat(gs)) <==> forall i :: 0 <= i < |gs| ==> StampsFit(gs[i])
  {
    if gs != [] {
      var tail := gs[1..];
      StampsFitParts(tail);
      forall i | 0 <= i < |tail| ensures tail[i] == gs[i + 1] {}
    }
  }

  /** A segment written from a sorted batch has all that merging assumes of
      segments, and what pruning assumes exactly when every timestamp fits. */
  lemma SealedSegmentOk(c: Codec, rs: seq<Record>, target: int, m: SegmentMeta)
    requires Encodable(c, rs) && Sorted(rs, false)
    requires Described(c, Split(c, rs, target), rs, m)
    ensures var seg := Planner.Segment(m, QueryBlocks(c, Groups(c, rs, target)), true);
      && Planner.SegmentShape(seg) && Planner.AllRecs(seg.blocks) == rs
      && (Planner.SegmentOk(seg) <==> StampsFit(rs))
  {
    hide Metas, Groups, Described, Split, Stored, StampsFit, Planner.BlockOk;
    var gs := Groups(c, rs, target);
    var bs := QueryBlocks(c, gs);
    GroupsOk(c, rs, target);
    AllRecsAre(bs, gs);
    StampsFitParts(gs);
    forall i | 0 <= i < |bs| ensures bs[i].recs != [] && (Planner.BlockOk(bs[i]) <==> StampsFit(gs[i])) {
      Layout(c, rs, target, i);
      StoredBoundsIff(Metas(c, gs)[i], gs[i], Short(c, gs[i]));
    }
    forall r | r in rs ensures m.minTS <= r.timestamp <= m.maxTS && Q.Summarises(m, r) {
      DescribesEach(c, Split(c, rs, target), rs, m, r);
    }
  }
}
