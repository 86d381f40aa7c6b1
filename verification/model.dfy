/**
  Types shared by the agent and the manager: log records, and the metadata of
  sealed segments and of the blocks inside them.
 */
module Model {
  datatype Option<+T> = None | Some(value: T)

  /** An instant in nanoseconds since 1970-01-01T00:00:00Z. */
  type Time = int

  /** The zero instant, 0001-01-01T00:00:00Z. As a bound it means "unbounded". */
  const ZERO_TIME: Time := -62_135_596_800_000_000_000

  /** One log line. `source` is the generation key of the file the line was read
      from, and `offset` the position just past the line in that file. */
  datatype Record = Record(
    source: string,
    offset: int,
    timestamp: Time,
    namespace: string,
    pod: string,
    container: string,
    node: string,
    image: string,
    stream: string,
    labels: map<string, string>,
    annotations: map<string, string>,
    message: string,
    body: map<string, string>)

  /** One compressed block of a segment. */
  datatype BlockMeta = BlockMeta(
    fileOffset: int,
    compLen: int,
    uncompLen: int,
    minTS: Time,
    maxTS: Time,
    recordCount: int)
  {
    predicate Overlaps(start: Time, end: Time) {
      SpanOverlaps(minTS, maxTS, start, end)
    }
  }

  /** The catalog entry of one sealed segment, which is also its S3 sidecar
      except for `localPath`. */
  datatype SegmentMeta = SegmentMeta(
    id: string,
    s3Key: string,
    minTS: Time,
    maxTS: Time,
    namespaces: seq<string>,
    pods: seq<string>,
    nodes: seq<string>,
    containers: seq<string>,
    labelKeys: seq<string>,
    fieldKeys: seq<string>,
    blocks: seq<BlockMeta>,
    sizeBytes: int,
    recordCount: int,
    hasLate: bool,
    sourceOffsets: map<string, int>,
    localPath: string)
  {
    predicate Overlaps(start: Time, end: Time) {
      SpanOverlaps(minTS, maxTS, start, end)
    }
  }

  /** Whether [minTS, maxTS] meets [start, end], a zero bound being unbounded. */
  predicate SpanOverlaps(minTS: Time, maxTS: Time, start: Time, end: Time) {
    && !(start != ZERO_TIME && maxTS < start)
    && !(end != ZERO_TIME && minTS > end)
  }

  /** Whether t lies in [start, end], a zero bound being unbounded. */
  predicate InRange(t: Time, start: Time, end: Time) {
    && !(start != ZERO_TIME && t < start)
    && !(end != ZERO_TIME && t > end)
  }

  /** Map lookup with default zero. */
  function At(m: map<string, int>, key: string): int {
    if key in m then m[key] else 0
  }
}
