/** The segment writer (internal/segment/writer.go). */
module SegmentWriter {
  import opened Model
  import opened RecordLists
  import opened Offsets
  import opened Wire
  import opened SegmentFormat

  newtype int32 = n: int | -0x8000_0000 <= n < 0x8000_0000

  // ---- Sizes ----

  lemma {:induction false} TextAtLeast(c: Codec, rs: seq<Record>)
    requires Encodable(c, rs)
    ensures |Text(c, rs)| >= |rs|
  {
    if rs != [] {
      TextAtLeast(c, rs[1..]);
    }
  }

  /** A block meets the size target or holds a single record. */
  predicate Fits(c: Codec, g: seq<Record>, target: int) {
    |g| == 1 || |Text(c, g)| <= target
  }

  ghost predicate BlockGood(c: Codec, g: seq<Record>, target: int) {
    g != [] && Encodable(c, g) && Fits(c, g, target)
  }

  ghost predicate PartsOk(c: Codec, p: Parts, target: int) {
    && (forall i :: 0 <= i < |p.done| ==> BlockGood(c, p.done[i], target))
    && (p.cur != [] ==> BlockGood(c, p.cur, target))
  }

  lemma PlaceOk(c: Codec, p: Parts, r: Record, target: int)
    requires PartsOk(c, p, target) && c.Encode(r).Some?
    ensures PartsOk(c, Place(c, p, r, target), target)
  {
    if p.cur != [] { TextAtLeast(c, p.cur); }
    TextSnoc(c, p.cur, r);
  }

  lemma PlaceAddsOne(c: Codec, p: Parts, r: Record, target: int)
    ensures Concat(Closed(Place(c, p, r, target))) == Concat(Closed(p)) + [r]
  {
    hide Text, Line;
    var x := Room(c, p, r, target);
    ConcatSnoc(x.done, x.cur + [r]);
    ConcatSnoc(p.done, p.cur);
    assert Concat(x.done) + (x.cur + [r]) == Concat(x.done) + x.cur + [r];
  }

  /** Every block is non-empty and within the target or a single record. */
  lemma {:induction false} SplitOk(c: Codec, rs: seq<Record>, target: int)
    requires Encodable(c, rs)
    ensures PartsOk(c, Split(c, rs, target), target)
  {
    if rs != [] {
      var p, last := Split(c, rs[..|rs| - 1], target), rs[|rs| - 1];
      SplitOk(c, rs[..|rs| - 1], target);
      PlaceOk(c, p, last, target);
    }
  }

  lemma NothingSplit(c: Codec, target: int)
    ensures Concat(Groups(c, [], target)) == []
  {
  }

  /** Dividing into blocks keeps every record, in order. */
  lemma {:induction false} SplitKeepsAll(c: Codec, rs: seq<Record>, target: int)
    ensures Concat(Groups(c, rs, target)) == rs
  {
    hide Concat, Closed, Place;
    if rs == [] {
      NothingSplit(c, target);
    } else {
      var p, last := Split(c, rs[..|rs| - 1], target), rs[|rs| - 1];
      SplitKeepsAll(c, rs[..|rs| - 1], target);
      PlaceAddsOne(c, p, last, target);
      assert rs == rs[..|rs| - 1] + [last];
    }
  }

  lemma SplitSnoc(c: Codec, rs: seq<Record>, r: Record, target: int)
    ensures Split(c, rs + [r], target) == Place(c, Split(c, rs, target), r, target)
  {
    assert (rs + [r])[..|rs|] == rs;
  }

  /** Under a target within an int32, so does every block's record count. */
  lemma CountFits(c: Codec, g: seq<Record>, target: int)
    requires Encodable(c, g) && Fits(c, g, target) && target < TWO_31
    ensures |g| < TWO_31
  {
    TextAtLeast(c, g);
  }

  predicate LateDone(gs: seq<seq<Record>>) {
    gs != [] && (LateDone(gs[..|gs| - 1]) || Late(gs[|gs| - 1]))
  }

  /** Some closed block, or the open one, has a late record. */
  predicate AnyLate(p: Parts) {
    LateDone(p.done) || Late(p.cur)
  }

  lemma LateExtends(g: seq<Record>, r: Record)
    ensures Late(g + [r]) <==> Late(g) || LateAfter(g, r)
  {
    assert (g + [r])[..|g|] == g;
  }

  lemma LateSteps(c: Codec, p: Parts, room: Parts, r: Record, target: int)
    requires room == Room(c, p, r, target)
    ensures AnyLate(Place(c, p, r, target)) <==> AnyLate(p) || LateAfter(room.cur, r)
  {
    assert (p.done + [p.cur])[..|p.done|] == p.done;
    LateExtends(room.cur, r);
  }

  /** The open block has room for one more count. */
  lemma CountHasRoom(c: Codec, p: Parts, r: Record, target: int)
    requires PartsOk(c, p, target) && c.Encode(r).Some? && target < TWO_31
    ensures |Room(c, p, r, target).cur| < TWO_31 - 1
    ensures PartsOk(c, Place(c, p, r, target), target)
  {
    PlaceOk(c, p, r, target);
    if p.cur != [] { TextAtLeast(c, p.cur); }
  }

  // ---- Keys ----

  /** Adds every non-empty key to m. */
  method AddKeys(m: set<string>, keys: set<string>) returns (out: set<string>)
    ensures out == m + (keys - {""})
  {
    out := m;
    var todo := keys;
    while todo != {}
      invariant todo <= keys
      invariant out == m + (keys - todo - {""})
      decreases todo
    {
      var k :| k in todo;
      todo := todo - {k};
      if k != "" {
        out := out + {k};
      }
    }
  }

  lemma InsertAscending(front: seq<string>, k: string, back: seq<string>)
    requires KeysAscend(front + back)
    requires forall i :: 0 <= i < |front| ==> Less(Codes(front[i]), Codes(k))
    requires forall i :: 0 <= i < |back| ==> Less(Codes(k), Codes(back[i]))
    ensures KeysAscend(front + [k] + back)
  {
    var all, old_ := front + [k] + back, front + back;
    forall i, j | 0 <= i < j < |all| ensures Less(Codes(all[i]), Codes(all[j])) {
      var i', j' := if i > |front| then i - 1 else i, if j > |front| then j - 1 else j;
      if i != |front| && j != |front| {
        assert all[i] == old_[i'] && all[j] == old_[j'];
      }
    }
  }

  /** The set's members in byte order. */
  method SortedKeys(m: set<string>) returns (out: seq<string>)
    ensures Lists(out, m)
  {
    out := [];
    var todo := m;
    while todo != {}
      invariant todo <= m
      invariant Lists(out, m - todo)
      decreases todo
    {
      var k :| k in todo;
      todo := todo - {k};
      var at := 0;
      while at < |out| && Less(Codes(out[at]), Codes(k))
        invariant 0 <= at <= |out|
        invariant forall i :: 0 <= i < at ==> Less(Codes(out[i]), Codes(k))
      {
        at := at + 1;
      }
      forall i | at <= i < |out| ensures Less(Codes(k), Codes(out[i])) {
        assert out[at] in out;
        if Codes(out[at]) == Codes(k) { CodesInjective(out[at], k); }
        LessTotal(Codes(out[at]), Codes(k));
        if at < i { LessTransitive(Codes(k), Codes(out[at]), Codes(out[i])); }
      }
      ghost var was := out;
      assert out == out[..at] + out[at..];
      InsertAscending(out[..at], k, out[at..]);
      out := out[..at] + [k] + out[at..];
      assert forall x :: x in out <==> x in was || x == k;
    }
  }

  // ---- Writer ----

  /** The part of the file already written, and the index of its blocks. */
  datatype Written = Written(w: seq<byte>, pos: int, blocks: seq<BlockMeta>)

  ghost function WrittenFor(c: Codec, header: seq<byte>, done: seq<seq<Record>>): Written {
    var w := header + Frames(c, done);
    Written(w, |w|, Metas(c, done))
  }

  /** The current block. */
  datatype OpenBlock = OpenBlock(lines: seq<byte>, count: int32, minTS: Time, maxTS: Time, lastTS: Time)

  ghost predicate OpenFor(c: Codec, cur: seq<Record>, b: OpenBlock) {
    && b.lines == Text(c, cur)
    && b.count as int == |cur|
    && (if cur == [] then b.lastTS == ZERO_TIME
        else b.minTS == Earliest(cur) && b.maxTS == Latest(cur) && b.lastTS == cur[|cur| - 1].timestamp)
  }

  datatype Totals = Totals(segMin: Time, segMax: Time, total: int, srcOffset: map<string, int>)

  ghost function TotalsFor(rs: seq<Record>): Totals {
    Totals(Earliest(rs), Latest(rs), |rs|, MaxOff(rs))
  }

  /** The accumulated source summary. */
  datatype Names = Names(
    namespaces: set<string>,
    pods: set<string>,
    nodes: set<string>,
    containers: set<string>,
    labelKeys: set<string>,
    fieldKeys: set<string>)

  ghost function NamesFor(rs: seq<Record>): Names {
    Names(Gather(rs, Namespace), Gather(rs, Pod), Gather(rs, Node),
          Gather(rs, Container), Gather(rs, LabelKey), Gather(rs, FieldKey))
  }

  /** Append's effect on the current block. */
  method AddLine(c: Codec, b: OpenBlock, ghost cur: seq<Record>, r: Record, line: seq<byte>)
    returns (out: OpenBlock, late: bool)
    requires OpenFor(c, cur, b) && c.Encode(r) == Some(line) && |cur| < TWO_31 - 1
    ensures OpenFor(c, cur + [r], out)
    ensures late == LateAfter(cur, r)
  {
    TextSnoc(c, cur, r);
    BoundsSnoc(cur, r);
    var lines := b.lines + line;
    lines := lines + [NEWLINE];
    assert lines == Text(c, cur) + (line + [NEWLINE]);
    var count := b.count + 1;
    var ts, curMin, curMax := r.timestamp, b.minTS, b.maxTS;
    if count == 1 || ts < curMin {
      curMin := ts;
    }
    if count == 1 || ts > curMax {
      curMax := ts;
    }
    late := b.lastTS != ZERO_TIME && ts < b.lastTS;
    out := OpenBlock(lines, count, curMin, curMax, ts);
  }

  /** Append's effect on the segment's bounds and offsets. */
  method AddTotals(t: Totals, ghost rs: seq<Record>, r: Record) returns (out: Totals)
    requires t == TotalsFor(rs)
    ensures out == TotalsFor(rs + [r])
  {
    BoundsSnoc(rs, r);
    MaxOffSnoc(rs, r);
    var ts, segMin, segMax, srcOffset := r.timestamp, t.segMin, t.segMax, t.srcOffset;
    if t.total == 0 || ts < segMin {
      segMin := ts;
    }
    if t.total == 0 || ts > segMax {
      segMax := ts;
    }
    if r.offset > At(srcOffset, r.source) {
      srcOffset := srcOffset[r.source := r.offset];
    }
    out := Totals(segMin, segMax, t.total + 1, srcOffset);
  }

  /** Append's effect on the summary. */
  method AddNames(n: Names, ghost rs: seq<Record>, r: Record) returns (out: Names)
    requires n == NamesFor(rs)
    ensures out == NamesFor(rs + [r])
  {
    var namespaces := AddKeys(n.namespaces, {r.namespace});
    GatherSnoc(rs, r, Namespace);
    var pods := AddKeys(n.pods, {r.pod});
    GatherSnoc(rs, r, Pod);
    var nodes := AddKeys(n.nodes, {r.node});
    GatherSnoc(rs, r, Node);
    var containers := AddKeys(n.containers, {r.container});
    GatherSnoc(rs, r, Container);
    var labelKeys := AddKeys(n.labelKeys, r.labels.Keys);
    GatherSnoc(rs, r, LabelKey);
    var fieldKeys := AddKeys(n.fieldKeys, r.body.Keys);
    GatherSnoc(rs, r, FieldKey);
    out := Names(namespaces, pods, nodes, containers, labelKeys, fieldKeys);
  }

  /** Writes the current block out, if it holds anything, and starts a new one. */
  method FlushBlock(c: Codec, ghost header: seq<byte>, ghost p: Parts, f: Written, b: OpenBlock)
    returns (out: Written, next: OpenBlock)
    requires f == WrittenFor(c, header, p.done) && |header| == HEADER_SIZE
    requires OpenFor(c, p.cur, b)
    ensures out == WrittenFor(c, header, Closed(p))
    ensures OpenFor(c, [], next)
  {
    if b.count == 0 {
      return f, b;
    }
    hide Frames, Text;
    FramesSnoc(c, p.done, p.cur);
    assert (p.done + [p.cur])[..|p.done|] == p.done;
    var comp := c.Compress(b.lines);
    var bm := BlockMeta(f.pos, |comp|, |b.lines|, b.minTS, b.maxTS, b.count as int);
    assert f.w + comp == header + (Frames(c, p.done) + comp);
    out := Written(f.w + comp, f.pos + |comp|, f.blocks + [bm]);
    next := OpenBlock([], 0, b.minTS, b.maxTS, ZERO_TIME);
  }

  /** Append's effect on the blocks. */
  method PlaceLine(c: Codec, ghost header: seq<byte>, target: int, ghost p: Parts, f: Written, b: OpenBlock,
    r: Record, line: seq<byte>) returns (f': Written, b': OpenBlock, late: bool)
    requires |header| == HEADER_SIZE && c.Encode(r) == Some(line) && PartsOk(c, p, target) && target < TWO_31
    requires f == WrittenFor(c, header, p.done) && OpenFor(c, p.cur, b)
    ensures var q := Place(c, p, r, target);
      && PartsOk(c, q, target)
      && f' == WrittenFor(c, header, q.done)
      && OpenFor(c, q.cur, b')
      && AnyLate(q) == (AnyLate(p) || late)
  {
    ghost var room := Room(c, p, r, target);
    CountHasRoom(c, p, r, target);
    LateSteps(c, p, room, r, target);
    f', b' := f, b;
    if |b.lines| > 0 && |b.lines| + |line| + 1 > target {
      f', b' := FlushBlock(c, header, p, f, b);
    }
    b', late := AddLine(c, b', room.cur, r, line);
  }

  /** The writer's fields: the file, the current block, the totals, the summary. */
  datatype State = State(file: Written, cur: OpenBlock, totals: Totals, names: Names, hasLate: bool)

  /** The fields are those of a writer that divided rs into p. */
  ghost predicate Tracks(c: Codec, header: seq<byte>, target: int, p: Parts, rs: seq<Record>, s: State) {
    && |header| == HEADER_SIZE && target < TWO_31
    && PartsOk(c, p, target)
    && s.file == WrittenFor(c, header, p.done)
    && OpenFor(c, p.cur, s.cur)
    && s.hasLate == AnyLate(p)
    && s.totals == TotalsFor(rs)
    && s.names == NamesFor(rs)
  }

  method AppendTo(c: Codec, ghost header: seq<byte>, target: int, ghost p: Parts, ghost rs: seq<Record>, s: State,
    r: Record, line: seq<byte>) returns (out: State)
    requires Tracks(c, header, target, p, rs, s) && c.Encode(r) == Some(line)
    ensures Tracks(c, header, target, Place(c, p, r, target), rs + [r], out)
  {
    var file, cur, late := PlaceLine(c, header, target, p, s.file, s.cur, r, line);
    var totals := AddTotals(s.totals, rs, r);
    var names := AddNames(s.names, rs, r);
    out := State(file, cur, totals, names, s.hasLate || late);
  }

  /** The bytes of the index, the summary and the footer. */
  method TailBytes(c: Codec, bs: seq<BlockMeta>, sum: Summary, indexOffset: nat, segMin: Time, segMax: Time)
    returns (out: seq<byte>)
    ensures out == Tail(c, bs, sum, indexOffset, segMin, segMax)
  {
    var idx := IndexBytes(bs);
    var comp := c.Compress(c.EncodeSummary(sum));
    var footer := WriteFooter(
      FooterData(indexOffset, |bs|, indexOffset + |idx|, |comp|, segMin, segMax, c.Crc(idx + comp)));
    out := idx + comp + footer;
  }

  method Summarise(names: Names, ghost rs: seq<Record>) returns (sum: Summary)
    requires names == NamesFor(rs)
    ensures Sums(sum, rs)
  {
    var ns := SortedKeys(names.namespaces);
    var ps := SortedKeys(names.pods);
    var hs := SortedKeys(names.nodes);
    var cs := SortedKeys(names.containers);
    var ls := SortedKeys(names.labelKeys);
    var fs := SortedKeys(names.fieldKeys);
    sum := Summary(ns, ps, hs, cs, ls, fs);
  }

  /** Finish's effect: the last block, the index, the summary and the footer. */
  method Seal(c: Codec, ghost header: seq<byte>, target: int, ghost p: Parts, ghost rs: seq<Record>, s: State)
    returns (w: seq<byte>, meta: SegmentMeta)
    requires Tracks(c, header, target, p, rs, s)
    ensures Described(c, p, rs, meta) && meta.sizeBytes == |w|
    ensures w == Assemble(c, header, Closed(p), SummaryOf(meta), Earliest(rs), Latest(rs))
  {
    var f, _ := FlushBlock(c, header, p, s.file, s.cur);
    var sum := Summarise(s.names, rs);
    var tail := TailBytes(c, f.blocks, sum, f.pos, s.totals.segMin, s.totals.segMax);
    w := f.w + tail;
    meta := SegmentMeta(
      "", "", s.totals.segMin, s.totals.segMax,
      sum.namespaces, sum.pods, sum.nodes, sum.containers, sum.labelKeys, sum.fieldKeys,
      f.blocks, |w|, s.totals.total, s.hasLate, s.totals.srcOffset, "");
  }

  class Writer {
    const codec: Codec
    const blockTarget: int
    /** The bytes of the header. */
    ghost const header: seq<byte>

    var state: State
    var finished: bool

    /** Everything appended so far, and how it is divided into blocks. */
    ghost var recs: seq<Record>
    ghost var parts: Parts

    ghost predicate Valid()
      reads this
    {
      !finished && Tracks(codec, header, blockTarget, parts, recs, state)
    }

    constructor (codec: Codec, created: int, blockTarget: int)
      requires blockTarget < TWO_31
      ensures Valid() && recs == [] && parts == Parts([], [])
      ensures this.codec == codec && header == Header(created) && this.blockTarget == blockTarget
    {
      assert Header(created) + [] == Header(created);
      this.codec, this.blockTarget, header := codec, blockTarget, Header(created);
      state := State(
        Written(Header(created), HEADER_SIZE, []),
        OpenBlock([], 0, ZERO_TIME, ZERO_TIME, ZERO_TIME),
        Totals(ZERO_TIME, ZERO_TIME, 0, map[]),
        Names({}, {}, {}, {}, {}, {}),
        false);
      finished := false;
      recs, parts := [], Parts([], []);
    }

    /** Adds a record to the current block, closing that block first if the
        record would take it past the target. */
    method Append(r: Record) returns (ok: bool)
      requires Valid()
      modifies this
      ensures Valid()
      ensures ok == codec.Encode(r).Some?
      ensures ok ==> recs == old(recs) + [r] && parts == Place(codec, old(parts), r, blockTarget)
      ensures !ok ==> unchanged(this)
    {
      hide Tracks, Place;
      if codec.Encode(r).None? {
        return false;
      }
      var line := codec.Encode(r).value;
      state := AppendTo(codec, header, blockTarget, parts, recs, state, r, line);
      recs, parts := recs + [r], Place(codec, parts, r, blockTarget);
      ok := true;
    }

    /** Writes the last block, the index, the summary and the footer. */
    method Finish() returns (meta: Option<SegmentMeta>)
      requires !finished ==> Valid()
      modifies this
      ensures old(finished) ==> meta == None && unchanged(this)
      ensures !old(finished) ==>
        && meta.Some?
        && Described(codec, old(parts), old(recs), meta.value)
        && meta.value.sizeBytes == |state.file.w|
        && state.file.w
           == Assemble(codec, header, Closed(old(parts)), SummaryOf(meta.value), Earliest(old(recs)), Latest(old(recs)))
      ensures finished
    {
      if finished {
        return None;
      }
      finished := true;
      var w, m := Seal(codec, header, blockTarget, parts, recs, state);
      state := state.(file := Written(w, |w|, m.blocks));
      meta := Some(m);
    }
  }

  function SummaryOf(m: SegmentMeta): Summary {
    Summary(m.namespaces, m.pods, m.nodes, m.containers, m.labelKeys, m.fieldKeys)
  }

  /** What the returned metadata says about the records. */
  ghost predicate Described(c: Codec, p: Parts, rs: seq<Record>, m: SegmentMeta) {
    && m.blocks == Metas(c, Closed(p))
    && m.minTS == Earliest(rs) && m.maxTS == Latest(rs)
    && m.recordCount == |rs|
    && m.sourceOffsets == MaxOff(rs)
    && Sums(SummaryOf(m), rs)
    && m.hasLate == AnyLate(p)
    && m.id == "" && m.s3Key == "" && m.localPath == ""
  }

  /** Fills the index buffer entry by entry. */
  method IndexBytes(bs: seq<BlockMeta>) returns (out: seq<byte>)
    ensures out == Index(bs)
  {
    hide Entry;
    var idx := new byte[|bs| * ENTRY_SIZE](_ => 0);
    for i := 0 to |bs|
      invariant idx[..i * ENTRY_SIZE] == Index(bs[..i])
    {
      var off := i * ENTRY_SIZE;
      ghost var done := idx[..off];
      PutEntry(idx, off, bs[i]);
      IndexSnoc(bs[..i], bs[i]);
      assert bs[..i + 1] == bs[..i] + [bs[i]];
      assert idx[..off + ENTRY_SIZE] == idx[..off] + idx[off..off + ENTRY_SIZE];
    }
    assert bs[..|bs|] == bs;
    out := idx[..];
  }

  method PutEntry(idx: array<byte>, off: nat, b: BlockMeta)
    requires off + ENTRY_SIZE <= idx.Length
    modifies idx
    ensures idx[..off] == old(idx[..off])
    ensures idx[off..off + ENTRY_SIZE] == Entry(b)
  {
    hide BigEndian, Unsigned64, Unsigned32;
    PutWord(idx, off, Unsigned64(b.fileOffset), 8);
    PutWord(idx, off + 8, Unsigned64(b.compLen), 8);
    PutWord(idx, off + 16, Unsigned64(b.uncompLen), 8);
    PutWord(idx, off + 24, Unsigned64(b.minTS), 8);
    PutWord(idx, off + 32, Unsigned64(b.maxTS), 8);
    PutWord(idx, off + 40, Unsigned32(b.recordCount), 4);
  }

  method WriteFooter(f: FooterData) returns (out: seq<byte>)
    ensures out == Footer(f)
  {
    hide BigEndian, Unsigned64, Unsigned32;
    var a := new byte[FOOTER_SIZE](_ => 0);
    PutField(a, 0, Unsigned64(f.indexOffset), 8);
    PutField(a, 8, Unsigned32(f.blockCount), 4);
    PutField(a, 12, Unsigned64(f.summaryOffset), 8);
    PutField(a, 20, Unsigned32(f.summaryLen), 4);
    PutField(a, 24, Unsigned64(f.segMin), 8);
    PutField(a, 32, Unsigned64(f.segMax), 8);
    PutField(a, 40, Unsigned32(f.crc), 4);
    assert a[..FOOTER_SIZE - 8] == a[..44] + Zeros(12);
    out := a[..FOOTER_SIZE - 8] + MAGIC_FOOT;
  }

  /** The rest of a fresh buffer is zero. */
  ghost predicate Blank(a: array<byte>, from: nat)
    reads a
  {
    forall k :: from <= k < a.Length ==> a[k] == 0
  }

  method PutField(a: array<byte>, off: nat, v: nat, n: nat)
    requires off + n <= a.Length && Blank(a, off)
    modifies a
    ensures Blank(a, off + n)
    ensures a[..off + n] == old(a[..off]) + BigEndian(v, n)
  {
    PutWord(a, off, v, n);
    forall k | off + n <= k < a.Length ensures a[k] == 0 {
      assert a[k] == a[off + n..][k - off - n];
    }
  }
}
