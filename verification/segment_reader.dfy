/** The segment reader (internal/segment/reader.go). */
module SegmentReader {
  import opened Model
  import opened Wire
  import opened SegmentFormat

  /** The longest line the block scanner takes, newline included. */
  const MAX_TOKEN := 16_777_216

  datatype Reader = Reader(file: seq<byte>, blocks: seq<BlockMeta>, summary: Summary, segMin: Time, segMax: Time)

  datatype OpenResult = Opened(reader: Reader) | Unsealed | Failed

  // ---- Decoding ----

  function Field(s: seq<byte>, off: nat, n: nat): nat
    requires off + n <= |s|
  {
    Word(s[off..off + n])
  }

  function Unpack(e: seq<byte>): BlockMeta
    requires |e| == ENTRY_SIZE
  {
    BlockMeta(
      Signed64(Field(e, 0, 8)), Signed64(Field(e, 8, 8)), Signed64(Field(e, 16, 8)),
      Signed64(Field(e, 24, 8)), Signed64(Field(e, 32, 8)), Signed32(Field(e, 40, 4)))
  }

  function Unindex(idx: seq<byte>, n: nat): seq<BlockMeta>
    requires |idx| == n * ENTRY_SIZE
  {
    if n == 0 then [] else [Unpack(idx[..ENTRY_SIZE])] + Unindex(idx[ENTRY_SIZE..], n - 1)
  }

  function Unfoot(f: seq<byte>): FooterData
    requires |f| == FOOTER_SIZE
  {
    FooterData(
      Signed64(Field(f, 0, 8)), Field(f, 8, 4), Signed64(Field(f, 12, 8)), Field(f, 20, 4),
      Signed64(Field(f, 24, 8)), Signed64(Field(f, 32, 8)), Field(f, 40, 4))
  }

  function ReadAt(file: seq<byte>, off: int, n: int): (r: Option<seq<byte>>)
    ensures r.Some? ==> |r.value| == n
  {
    if 0 <= off && 0 <= n && off + n <= |file| then Some(file[off..off + n]) else None
  }

  /** Index and summary lie between header and footer, in that order. The sums
      are 64-bit. */
  predicate Placed(f: FooterData, size: int) {
    var indexEnd := Signed64(f.indexOffset + f.blockCount * ENTRY_SIZE);
    && f.indexOffset >= HEADER_SIZE
    && indexEnd <= size
    && f.summaryOffset >= indexEnd
    && Signed64(f.summaryOffset + f.summaryLen) <= size - FOOTER_SIZE
  }

  /** Open: what a file yields. */
  function OpenFile(c: Codec, file: seq<byte>): OpenResult {
    if |file| < HEADER_SIZE + FOOTER_SIZE then Unsealed
    else
      var foot := file[|file| - FOOTER_SIZE..];
      var f := Unfoot(foot);
      if foot[FOOTER_SIZE - 8..] != MAGIC_FOOT || !Placed(f, |file|) then Unsealed
      else
        match (ReadAt(file, f.indexOffset, f.blockCount * ENTRY_SIZE), ReadAt(file, f.summaryOffset, f.summaryLen))
        case (Some(idx), Some(comp)) => OpenWith(c, file, f, idx, comp)
        case _ => Failed
  }

  function OpenWith(c: Codec, file: seq<byte>, f: FooterData, idx: seq<byte>, comp: seq<byte>): OpenResult
    requires 0 <= f.blockCount && |idx| == f.blockCount * ENTRY_SIZE
  {
    if c.Crc(idx + comp) != f.crc then Unsealed
    else
      match c.Decompress(comp)
      case None => Failed
      case Some(json) =>
        match c.DecodeSummary(json)
        case None => Failed
        case Some(sum) => Opened(Reader(file, Unindex(idx, f.blockCount), sum, f.segMin, f.segMax))
  }

  method Open(c: Codec, file: seq<byte>) returns (out: OpenResult)
    ensures out == OpenFile(c, file)
  {
    if |file| < HEADER_SIZE + FOOTER_SIZE {
      return Unsealed;
    }
    var foot := file[|file| - FOOTER_SIZE..];
    if foot[FOOTER_SIZE - 8..] != MAGIC_FOOT {
      return Unsealed;
    }
    var f := Unfoot(foot);
    if !Placed(f, |file|) {
      return Unsealed;
    }
    var idx := ReadAt(file, f.indexOffset, f.blockCount * ENTRY_SIZE);
    if idx.None? {
      return Failed;
    }
    var comp := ReadAt(file, f.summaryOffset, f.summaryLen);
    if comp.None? {
      return Failed;
    }
    if c.Crc(idx.value + comp.value) != f.crc {
      return Unsealed;
    }
    var blocks := ReadIndex(idx.value, f.blockCount);
    var json := c.Decompress(comp.value);
    if json.None? {
      return Failed;
    }
    var sum := c.DecodeSummary(json.value);
    if sum.None? {
      return Failed;
    }
    out := Opened(Reader(file, blocks, sum.value, f.segMin, f.segMax));
  }

  /** Fills the block list entry by entry. */
  method ReadIndex(idx: seq<byte>, n: nat) returns (blocks: seq<BlockMeta>)
    requires |idx| == n * ENTRY_SIZE
    ensures blocks == Unindex(idx, n)
  {
    hide Unpack;
    blocks := [];
    for i := 0 to n
      invariant blocks + Unindex(idx[i * ENTRY_SIZE..], n - i) == Unindex(idx, n)
    {
      var off := i * ENTRY_SIZE;
      ghost var rest := idx[off..];
      var b := Unpack(idx[off..off + ENTRY_SIZE]);
      assert rest[..ENTRY_SIZE] == idx[off..off + ENTRY_SIZE];
      assert rest[ENTRY_SIZE..] == idx[(i + 1) * ENTRY_SIZE..];
      assert blocks + ([b] + Unindex(rest[ENTRY_SIZE..], n - i - 1)) == blocks + [b] + Unindex(rest[ENTRY_SIZE..], n - i - 1);
      blocks := blocks + [b];
    }
  }

  function CountSum(bs: seq<BlockMeta>): int {
    if bs == [] then 0 else bs[0].recordCount + CountSum(bs[1..])
  }

  /** The metadata as the footer, index and summary give it. */
  method Meta(rd: Reader) returns (m: SegmentMeta)
    ensures m.recordCount == CountSum(rd.blocks)
    ensures m == SegmentMeta(
      "", "", rd.segMin, rd.segMax, rd.summary.namespaces, rd.summary.pods, rd.summary.nodes, rd.summary.containers,
      rd.summary.labelKeys, rd.summary.fieldKeys, rd.blocks, |rd.file|, m.recordCount, false, map[], "")
  {
    var count := 0;
    for i := 0 to |rd.blocks|
      invariant count + CountSum(rd.blocks[i..]) == CountSum(rd.blocks)
    {
      assert rd.blocks[i..][1..] == rd.blocks[i + 1..];
      count := count + rd.blocks[i].recordCount;
    }
    m := SegmentMeta(
      "", "", rd.segMin, rd.segMax, rd.summary.namespaces, rd.summary.pods, rd.summary.nodes, rd.summary.containers,
      rd.summary.labelKeys, rd.summary.fieldKeys, rd.blocks, |rd.file|, count, false, map[], "");
  }

  // ---- Lines ----

  /** Where the first newline is, or the length. */
  function NewlineAt(raw: seq<byte>): (n: nat)
    ensures n <= |raw|
    ensures NEWLINE !in raw[..n]
    ensures n < |raw| ==> raw[n] == NEWLINE
  {
    if raw == [] || raw[0] == NEWLINE then 0
    else
      var n := NewlineAt(raw[1..]);
      assert raw[..n + 1] == [raw[0]] + raw[1..][..n];
      n + 1
  }

  function DropCR(line: seq<byte>): seq<byte> {
    if line != [] && line[|line| - 1] == 13 then line[..|line| - 1] else line
  }

  /** What a block yields: the records read, and whether all of it was read. */
  datatype Lines = Lines(recs: seq<Record>, ok: bool)

  function ReadLines(c: Codec, raw: seq<byte>): Lines
    decreases |raw|
  {
    if raw == [] then Lines([], true)
    else
      var n := NewlineAt(raw);
      if n >= MAX_TOKEN then Lines([], false)
      else
        match c.Decode(DropCR(raw[..n]))
        case None => Lines([], false)
        case Some(r) =>
          var rest := ReadLines(c, if n < |raw| then raw[n + 1..] else []);
          Lines([r] + rest.recs, rest.ok)
  }

  /** The scanner loop over a block's lines. */
  method ScanLines(c: Codec, raw: seq<byte>) returns (out: Lines)
    ensures out == ReadLines(c, raw)
  {
    var recs, rest := [], raw;
    while rest != []
      invariant ReadLines(c, raw) == Lines(recs + ReadLines(c, rest).recs, ReadLines(c, rest).ok)
      decreases |rest|
    {
      var n := NewlineAt(rest);
      if n >= MAX_TOKEN {
        return Lines(recs, false);
      }
      var rec := c.Decode(DropCR(rest[..n]));
      if rec.None? {
        return Lines(recs, false);
      }
      ghost var was := rest;
      rest := if n < |rest| then rest[n + 1..] else [];
      assert recs + ([rec.value] + ReadLines(c, rest).recs) == recs + [rec.value] + ReadLines(c, rest).recs;
      recs := recs + [rec.value];
    }
    out := Lines(recs, true);
  }

  /** ReadBlock: the records of block i. */
  function BlockLines(c: Codec, rd: Reader, i: int): Lines {
    if i < 0 || i >= |rd.blocks| then Lines([], false)
    else
      match ReadAt(rd.file, rd.blocks[i].fileOffset, rd.blocks[i].compLen)
      case None => Lines([], false)
      case Some(comp) =>
        match c.Decompress(comp)
        case None => Lines([], false)
        case Some(raw) => ReadLines(c, raw)
  }

  method ReadBlock(c: Codec, rd: Reader, i: int) returns (out: Lines)
    ensures out == BlockLines(c, rd, i)
  {
    if i < 0 || i >= |rd.blocks| {
      return Lines([], false);
    }
    var b := rd.blocks[i];
    var comp := ReadAt(rd.file, b.fileOffset, b.compLen);
    if comp.None? {
      return Lines([], false);
    }
    var raw := c.Decompress(comp.value);
    if raw.None? {
      return Lines([], false);
    }
    out := ScanLines(c, raw.value);
  }
}
