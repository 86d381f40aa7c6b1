/**
  The segment file format (internal/segment/format.go): header, zstd blocks of
  whole JSON lines, block index, source summary, footer. The functions here say
  what the writer puts into a file for a given sequence of records.
 */
module SegmentFormat {
  import opened Model
  import opened Wire

  const HEADER_SIZE := 32
  const FOOTER_SIZE := 64
  const ENTRY_SIZE := 44
  const FORMAT_VERSION := 1
  const FLAG_ZSTD := 1
  const DEFAULT_BLOCK_TARGET := 2_097_152
  const NEWLINE: byte := 10

  /** "SLOGSEG1" */
  const MAGIC_HEAD: seq<byte> := [83, 76, 79, 71, 83, 69, 71, 49]
  /** "SLOGEND1" */
  const MAGIC_FOOT: seq<byte> := [83, 76, 79, 71, 69, 78, 68, 49]

  datatype Summary = Summary(
    namespaces: seq<string>,
    pods: seq<string>,
    nodes: seq<string>,
    containers: seq<string>,
    labelKeys: seq<string>,
    fieldKeys: seq<string>)

  /** The libraries the format rests on: JSON, zstd and CRC-32C. */
  datatype Codec = Codec(
    marshal: Record -> Option<seq<byte>>,
    unmarshal: seq<byte> -> Option<Record>,
    zip: seq<byte> -> seq<byte>,
    unzip: seq<byte> -> Option<seq<byte>>,
    checksum: seq<byte> -> word32,
    marshalSummary: Summary -> seq<byte>,
    unmarshalSummary: seq<byte> -> Option<Summary>)
  {
    function Encode(r: Record): Option<seq<byte>> { marshal(r) }
    function Decode(line: seq<byte>): Option<Record> { unmarshal(line) }
    function Compress(raw: seq<byte>): seq<byte> { zip(raw) }
    function Decompress(comp: seq<byte>): Option<seq<byte>> { unzip(comp) }
    function Crc(data: seq<byte>): word32 { checksum(data) }
    function EncodeSummary(sum: Summary): seq<byte> { marshalSummary(sum) }
    function DecodeSummary(json: seq<byte>): Option<Summary> { unmarshalSummary(json) }

    /** Decoding undoes encoding, and a record's JSON is one line that does not
        end in a carriage return. */
    ghost predicate Lawful() {
      && (forall r: Record :: Encode(r).Some? ==> OneLine(Encode(r).value) && Decode(Encode(r).value) == Some(r))
      && (forall raw: seq<byte> :: Decompress(Compress(raw)) == Some(raw))
      && (forall sum: Summary :: DecodeSummary(EncodeSummary(sum)) == Some(sum))
    }
  }

  predicate OneLine(line: seq<byte>) {
    line != [] && NEWLINE !in line && line[|line| - 1] != 13
  }

  predicate Encodable(c: Codec, rs: seq<Record>) {
    forall i :: 0 <= i < |rs| ==> c.Encode(rs[i]).Some?
  }

  /** A record's JSON and the newline after it. */
  function Line(c: Codec, r: Record): seq<byte> {
    match c.Encode(r)
    case Some(line) => line + [NEWLINE]
    case None => []
  }

  function Text(c: Codec, rs: seq<Record>): seq<byte> {
    if rs == [] then [] else Line(c, rs[0]) + Text(c, rs[1..])
  }

  lemma {:induction false} TextSnoc(c: Codec, rs: seq<Record>, r: Record)
    ensures Text(c, rs + [r]) == Text(c, rs) + Line(c, r)
  {
    if rs == [] {
      assert [r][1..] == [];
    } else {
      TextSnoc(c, rs[1..], r);
      assert (rs + [r])[1..] == rs[1..] + [r];
    }
  }

  // ---- Blocks ----

  /** The blocks already closed, and the records of the open one. */
  datatype Parts = Parts(done: seq<seq<Record>>, cur: seq<Record>)

  /** Closes the open block if the record would take it past the target. */
  function Room(c: Codec, p: Parts, r: Record, target: int): Parts {
    if |Text(c, p.cur)| > 0 && |Text(c, p.cur)| + |Line(c, r)| > target then Parts(p.done + [p.cur], []) else p
  }

  function Add(p: Parts, r: Record): Parts {
    Parts(p.done, p.cur + [r])
  }

  function Place(c: Codec, p: Parts, r: Record, target: int): Parts {
    Add(Room(c, p, r, target), r)
  }

  function Split(c: Codec, rs: seq<Record>, target: int): Parts {
    if rs == [] then Parts([], []) else Place(c, Split(c, rs[..|rs| - 1], target), rs[|rs| - 1], target)
  }

  function Closed(p: Parts): seq<seq<Record>> {
    if p.cur == [] then p.done else p.done + [p.cur]
  }

  /** How the records are divided into blocks. */
  function Groups(c: Codec, rs: seq<Record>, target: int): seq<seq<Record>> {
    Closed(Split(c, rs, target))
  }

  /** The compressed blocks, end to end. */
  function Frames(c: Codec, gs: seq<seq<Record>>): seq<byte> {
    if gs == [] then [] else c.Compress(Text(c, gs[0])) + Frames(c, gs[1..])
  }

  lemma {:induction false} FramesSnoc(c: Codec, gs: seq<seq<Record>>, g: seq<Record>)
    ensures Frames(c, gs + [g]) == Frames(c, gs) + c.Compress(Text(c, g))
  {
    if gs == [] {
      assert [g][1..] == [];
    } else {
      FramesSnoc(c, gs[1..], g);
      assert (gs + [g])[1..] == gs[1..] + [g];
    }
  }

  // ---- Bounds ----

  function Earliest(rs: seq<Record>): Time {
    if rs == [] then ZERO_TIME
    else
      var t := rs[|rs| - 1].timestamp;
      if |rs| == 1 || t < Earliest(rs[..|rs| - 1]) then t else Earliest(rs[..|rs| - 1])
  }

  function Latest(rs: seq<Record>): Time {
    if rs == [] then ZERO_TIME
    else
      var t := rs[|rs| - 1].timestamp;
      if |rs| == 1 || t > Latest(rs[..|rs| - 1]) then t else Latest(rs[..|rs| - 1])
  }

  lemma BoundsSnoc(rs: seq<Record>, r: Record)
    ensures Earliest(rs + [r]) == if rs == [] || r.timestamp < Earliest(rs) then r.timestamp else Earliest(rs)
    ensures Latest(rs + [r]) == if rs == [] || r.timestamp > Latest(rs) then r.timestamp else Latest(rs)
  {
    assert (rs + [r])[..|rs|] == rs;
  }

  /** The bounds are exact: they bound every record and are attained. */
  lemma {:induction false} BoundsAreExact(rs: seq<Record>)
    requires rs != []
    ensures forall r :: r in rs ==> Earliest(rs) <= r.timestamp <= Latest(rs)
    ensures exists r :: r in rs && r.timestamp == Earliest(rs)
    ensures exists r :: r in rs && r.timestamp == Latest(rs)
  {
    var front, last := rs[..|rs| - 1], rs[|rs| - 1];
    assert rs == front + [last];
    assert last in rs;
    if front != [] {
      BoundsAreExact(front);
      var a :| a in front && a.timestamp == Earliest(front);
      var b :| b in front && b.timestamp == Latest(front);
      assert a in rs && b in rs;
    }
  }

  /** r is earlier than the last of g. */
  predicate LateAfter(g: seq<Record>, r: Record) {
    g != [] && g[|g| - 1].timestamp != ZERO_TIME && r.timestamp < g[|g| - 1].timestamp
  }

  /** Some record is earlier than the one before it in the same block. */
  predicate Late(rs: seq<Record>) {
    rs != [] && (Late(rs[..|rs| - 1]) || LateAfter(rs[..|rs| - 1], rs[|rs| - 1]))
  }

  // ---- Index ----

  function MetaOf(c: Codec, g: seq<Record>, off: int): BlockMeta {
    BlockMeta(off, |c.Compress(Text(c, g))|, |Text(c, g)|, Earliest(g), Latest(g), |g|)
  }

  function Metas(c: Codec, gs: seq<seq<Record>>): (ms: seq<BlockMeta>)
    ensures |ms| == |gs|
  {
    if gs == [] then []
    else
      var front := gs[..|gs| - 1];
      Metas(c, front) + [MetaOf(c, gs[|gs| - 1], HEADER_SIZE + |Frames(c, front)|)]
  }

  function Entry(b: BlockMeta): (s: seq<byte>)
    ensures |s| == ENTRY_SIZE
  {
    BigEndian(Unsigned64(b.fileOffset), 8)
    + BigEndian(Unsigned64(b.compLen), 8)
    + BigEndian(Unsigned64(b.uncompLen), 8)
    + BigEndian(Unsigned64(b.minTS), 8)
    + BigEndian(Unsigned64(b.maxTS), 8)
    + BigEndian(Unsigned32(b.recordCount), 4)
  }

  function Index(bs: seq<BlockMeta>): (s: seq<byte>)
    ensures |s| == |bs| * ENTRY_SIZE
  {
    if bs == [] then [] else Entry(bs[0]) + Index(bs[1..])
  }

  lemma {:induction false} IndexSnoc(bs: seq<BlockMeta>, b: BlockMeta)
    ensures Index(bs + [b]) == Index(bs) + Entry(b)
  {
    if bs == [] {
      assert [b][1..] == [];
    } else {
      IndexSnoc(bs[1..], b);
      assert (bs + [b])[1..] == bs[1..] + [b];
    }
  }

  // ---- Header, footer, file ----

  function Zeros(n: nat): (s: seq<byte>)
    ensures |s| == n
  {
    seq(n, i => 0)
  }

  function Header(created: int): (s: seq<byte>)
    ensures |s| == HEADER_SIZE
  {
    MAGIC_HEAD + BigEndian(FORMAT_VERSION, 2) + BigEndian(FLAG_ZSTD, 2) + BigEndian(Unsigned64(created), 8) + Zeros(12)
  }

  datatype FooterData = FooterData(
    indexOffset: int, blockCount: int, summaryOffset: int, summaryLen: int, segMin: Time, segMax: Time, crc: int)

  function Footer(f: FooterData): (s: seq<byte>)
    ensures |s| == FOOTER_SIZE
  {
    BigEndian(Unsigned64(f.indexOffset), 8)
    + BigEndian(Unsigned32(f.blockCount), 4)
    + BigEndian(Unsigned64(f.summaryOffset), 8)
    + BigEndian(Unsigned32(f.summaryLen), 4)
    + BigEndian(Unsigned64(f.segMin), 8)
    + BigEndian(Unsigned64(f.segMax), 8)
    + BigEndian(Unsigned32(f.crc), 4)
    + Zeros(12)
    + MAGIC_FOOT
  }

  /** Everything between the blocks and the end of the file. */
  function Tail(c: Codec, bs: seq<BlockMeta>, sum: Summary, indexOffset: nat, segMin: Time, segMax: Time): seq<byte> {
    var comp := c.Compress(c.EncodeSummary(sum));
    Index(bs) + comp
    + Footer(FooterData(indexOffset, |bs|, indexOffset + |Index(bs)|, |comp|, segMin, segMax, c.Crc(Index(bs) + comp)))
  }

  /** The whole file: header, blocks and tail. */
  function Assemble(
    c: Codec, header: seq<byte>, gs: seq<seq<Record>>, sum: Summary, segMin: Time, segMax: Time): seq<byte>
  {
    var front := header + Frames(c, gs);
    front + Tail(c, Metas(c, gs), sum, |front|, segMin, segMax)
  }

  /** The whole file for a sequence of appended records. */
  function Image(c: Codec, header: seq<byte>, rs: seq<Record>, target: int, sum: Summary): seq<byte> {
    Assemble(c, header, Groups(c, rs, target), sum, Earliest(rs), Latest(rs))
  }

  // ---- Summary ----

  datatype Attribute = Namespace | Pod | Node | Container | LabelKey | FieldKey

  /** The values a record adds to the summary. */
  function Contributed(r: Record, a: Attribute): set<string> {
    match a
    case Namespace => {r.namespace}
    case Pod => {r.pod}
    case Node => {r.node}
    case Container => {r.container}
    case LabelKey => r.labels.Keys
    case FieldKey => r.body.Keys
  }

  /** Every non-empty value some record contributes. */
  ghost function Gather(rs: seq<Record>, a: Attribute): set<string> {
    set r, k | r in rs && k in Contributed(r, a) && k != "" :: k
  }

  lemma GatherSnoc(rs: seq<Record>, r: Record, a: Attribute)
    ensures Gather(rs + [r], a) == Gather(rs, a) + (Contributed(r, a) - {""})
  {
    forall k ensures k in Gather(rs + [r], a) <==> k in Gather(rs, a) + (Contributed(r, a) - {""}) {
      if k in Gather(rs, a) {
        var x :| x in rs && k in Contributed(x, a);
        assert x in rs + [r];
      }
      if k in Contributed(r, a) {
        assert r in rs + [r];
      }
    }
  }

  predicate KeysAscend(keys: seq<string>) {
    forall i, j :: 0 <= i < j < |keys| ==> Less(Codes(keys[i]), Codes(keys[j]))
  }

  /** keys lists the set, in order. */
  ghost predicate Lists(keys: seq<string>, s: set<string>) {
    KeysAscend(keys) && forall k :: k in keys <==> k in s
  }

  ghost predicate Sums(sum: Summary, rs: seq<Record>) {
    && Lists(sum.namespaces, Gather(rs, Namespace))
    && Lists(sum.pods, Gather(rs, Pod))
    && Lists(sum.nodes, Gather(rs, Node))
    && Lists(sum.containers, Gather(rs, Container))
    && Lists(sum.labelKeys, Gather(rs, LabelKey))
    && Lists(sum.fieldKeys, Gather(rs, FieldKey))
  }
}
