# simplelog: a verified model

simplelog ships container log lines from node agents to a manager, which seals
them into segments in S3 and queries them. This Dafny project models the parts of
it in which the correctness arguments lie, and proves them for all inputs and all
runs. `dafny verify dfyconfig.toml` checks everything.

- **Delivery.** `client.dfy`, `spool.dfy`, `server.dfy` and `checkpoint.dfy` hold
  the client's window, the spool, the ingest stream and the checkpoint file as
  classes, each method tied to a function of the old state. `delivery.dfy` puts the
  same functions together as a state machine over files, agents, sessions, the
  manager and S3, whose steps include every crash, reconnect, lost ack and failed
  seal. `delivery_steps.dfy` and `delivery_sound.dfy` prove what holds of every run,
  `exactly_once.dfy` when exactly a record is held twice, and
  `delivery_checkpoints.dfy` that every checkpoint is the end of a line.
  `delivery_agents.dfy` and `delivery_runs.dfy` prove the invariant by which what is
  acked is durable and dedup by a watermark per source loses nothing, and when
  exactly overlapping seals break the promise; `delivery_overlap.dfy` is a run that
  breaks it.
- **Tailing.** `tailer.dfy`: incremental reading and folding of partial lines equals
  reading the file once, and a restart resumes with a suffix.
- **Queries.** `query.dfy` (meaning and pruning), `time_order.dfy`, `merge.dfy`,
  `planner.dfy` and `executor.dfy` (lazy cursors, k-way merge, limit) prove that
  execution computes "filter everything, sort stably, take n". `lexer.dfy`,
  `parser.dfy`, `printer.dfy` and `query_roundtrip.dfy` prove that parsing undoes
  printing. `follow.dfy` is the live tail, and `follow_runs.dfy` puts it together
  with the spool, the hub and the executor.
- **Segments.** `wire.dfy`, `segment_format.dfy`, `segment_writer.dfy`,
  `segment_reader.dfy` and `segment_roundtrip.dfy`: the file format, both ways.
  `sealed_queries.dfy`: what a query finds in the segments so written.
- **Store.** `segment_keys.dfy`, `catalog.dfy`, `store.dfy` and `cache.dfy`: keys,
  the catalog and its recovery from S3, and the local cache.
- `model.dfy`, `offsets.dfy`, `record_lists.dfy` and `text.dfy` hold what several of
  these share.

Library functions (JSON, zstd, CRC-32C, float syntax, regular expressions, time
parsing, calendar dates) are function values; where a result needs a law about them,
such as "decompression undoes compression", the law is a named predicate in its
`requires`. Times are unbounded integers of nanoseconds; where the source puts them
into 64-bit words the model wraps them.

Hypotheses of the results over runs:

- For ack on durability and for dedup losing nothing, sidecars are stored in turn
  (`InTurn`): nothing that comes before a batch in its files is missing from S3 when
  the sidecar of the batch is stored. Seals that run one at a time do so (`DeliveryRuns.SerialIsInTurn`). `RunSealLoop` is sequential,
  but `Shutdown` may start a seal beside it, and then the promise can fail
  (`DeliveryOverlap.OverlapLosesAcked`).
- Records dropped at the hard cap are remembered in `shed`; with a hard cap of at
  least twice the soft cap there are none.

Behaviour of the code that its users may not expect, modelled as it is:

- A read failure in a segment's first block to read is not reported by `Run`; the
  segment is silently left out of the answer. `Executor.Run` says exactly when that
  matters, `SealedQueries.SilentIff` when it happens to a segment that was sealed.
- Block bounds outside the 64-bit nanoseconds (from 1678 to 2262) come back wrapped,
  so that a block can be pruned although it holds what is asked for
  (`SegmentRoundTrip.SealedSegmentOk`, `SealedQueries.FarStampLoses`).
- Follow loses records of a source whose timestamps run backwards across the
  subscription (`Follow.MissedAfterScanIff`), and those being sealed while history
  is scanned (`FollowRuns.SlippedIsMissed`).
- Fields and literals that are NaN are neither below, equal to nor above anything
  (`Query.OrderLaws`).
- A record whose encoding reaches 16 MiB is written but cannot be read back
  (`SegmentRoundTrip.RoundTripIff`).
- A cached segment larger than the whole cache is evicted as it is admitted, so that
  `Reader` fails on it (`Cache.DiskCache.Read`).
- Catalog keys order segments that start before 1970 after all others
  (`Catalog.KeyOrderIff`).

## Model

| member | source | states |
|---|---|---|
| `DeliveryRuns.Invariant` | internal/manager/spool.go:81-231 | In every state of every run whose sidecars so far were stored in turn (`InTurn`): each channel and each window carries its sources without a gap above the watermark in force, S3 holds exactly what its sidecars mark, S3, flight and buffer together exactly what the dedup watermark marks. |
| `DeliveryRuns.AckOnDurability` | internal/manager/spool.go:145-217 | Under agent and manager crashes anywhere inside a seal, reconnects, resends, lost acks, failed and overlapping seals, as long as sidecars are stored in turn, every record up to an agent's checkpoint is in a segment with a stored sidecar, or was shed at the hard cap. |
| `DeliveryRuns.MarkCoveredThroughoutIff` | internal/manager/spool.go:145-217 | The edge of that promise, over every run and however seals overlap: all log records up to the mark of the sidecars are durable or shed in every state, if and only if each sidecar is stored of a batch before whose records nothing in their files is missing. |
| `DeliveryRuns.InTurnIff` | internal/manager/spool.go:145-217 | Whether sidecars are stored in turn can be told from the manager: no record in another seal or in the buffer comes, in its file, before one of the batch, unless it is durable, in the batch or shed. |
| `DeliveryRuns.SerialIsInTurn` | internal/manager/manager.go:48-87 | Seals that run one at a time store their sidecars in turn. |
| `DeliverySound.AlwaysSound` | internal/manager/spool.go:81-231 | In every state of every run, however seals overlap: the manager and its seals are in good order, committed offsets are at or below the mark, what is held is in the files and at or below the dedup watermark, and so is in the files what agents hold and send. |
| `DeliverySound.DurableForever` | internal/store/store.go:79-122 | A record once in a discoverable segment stays there through every later step of every run. |
| `DeliveryRuns.NothingShed` | internal/ingest/client.go:88-132 | If every record fits the soft cap and the hard cap is at least twice it, no run sheds anything. |
| `DeliveryRuns.AckedIsDurableForever` | internal/manager/spool.go:176-217 | The promise with no exception: what an agent checkpointed is durable from then on, in every run with sidecars in turn whose caps satisfy the condition. |
| `DeliveryRuns.DedupLosesNothing` | internal/manager/spool.go:85-89 | Whenever Accept rejects a delivered record, and sidecars were stored in turn so far, that record is durable, in flight or buffered (or was shed), for any interleaving of old and new sessions. |
| `DeliverySound.AcceptedIsNew` | internal/manager/spool.go:85-96 | Conversely, in every run, a record that Accept takes is in none of these places. |
| `ExactlyOnce.ExactlyOnceIff` | internal/manager/spool.go:205-217 | For every run, however seals overlap: no record occurs twice across discoverable segments, flights and buffer in any of its states, if and only if no seal of the run reports failure after its sidecar was stored. |
| `ExactlyOnce.LateFailureDoubles` | internal/store/store.go:100-122 | After a seal that fails with its sidecar stored, every record of its batch, and there is one, is held at least twice. |
| `ExactlyOnce.BagStep` | internal/manager/spool.go:149-217 | Every other step keeps each record at most once. |
| `DeliveryRuns.PutSidecarKeeps` | internal/store/store.go:86-105 | Storing the sidecar of a ready batch keeps the invariant with the mark raised to the end of the batch. |
| `DeliveryRuns.MarkCoveredIff` | internal/manager/spool.go:176-187 | The sidecar marks the highest offset of each source in the batch; every record up to there is durable or shed exactly when all that comes before the batch in its files was durable, in it, or shed. |
| `DeliverySteps.FinishSealHolds` | internal/manager/spool.go:209-217 | Ending a seal loses nothing that is held, and advancing committed offsets never passes what the stored sidecars mark. |
| `DeliveryRuns.CrashKeeps` | internal/manager/spool.go:54-79 | After a manager crash the watermarks read back from the sidecars restart the protocol in a good state. |
| `DeliveryRuns.AcceptKeeps` | internal/manager/spool.go:82-96 | Accepting the next record of a gapless channel keeps buffer, flight and S3 equal to the records up to the raised watermark. |
| `DeliveryRuns.StepKeeps` | internal/manager/spool.go:81-231 | Every step of the protocol keeps the invariant. |
| `DeliveryAgents.ReadKeeps` | internal/ingest/client.go:92-132 | Queueing the next line, shedding the oldest if need be, keeps the window gapless above the manager's mark. |
| `DeliveryAgents.NoGapWithBatch` | internal/ingest/client.go:216-251 | What a flush appends to a session continues that session's stream without a gap. |
| `DeliveryAgents.AckKeeps` | internal/ingest/client.go:272-295 | Applying an ack drops only durable records from the window and moves the checkpoint only over durable records. |
| `DeliveryAgents.DeliverKeeps` | internal/ingest/server.go:72-86 | Delivering the head of any session, old or live, leaves every channel gapless above the new watermark. |
| `DeliveryAgents.AgentCrashKeeps` | internal/tailer/tailer.go:151 | After an agent crash the tail restarts at the checkpoint and everything before it is still accounted for. |
| `DeliveryOverlap.OverlapLosesAcked` | internal/manager/manager.go:48-87 | With two seals in flight a sidecar can be stored out of turn, and then the promise fails: an 18-step run in which an acked record is in no segment, no flight and no buffer. |
| `Delivery.MarkIsMax` | internal/store/store.go:133-147 | The watermarks recovered from sidecars are exactly the highest durable offset of each source. |
| `DeliveryCheckpoints.CheckpointIsLineEnd` | internal/tailer/tailer.go:151 | In every run every checkpoint value, and every ack on its way, is the offset of a record that was read, or zero. |
| `DeliveryCheckpoints.RestartResumes` | internal/tailer/tailer.go:186-191 | An agent restarted in any reachable state re-emits exactly the records past its checkpoint, beginning inside no line and no partial-line run. |
| `Spooling.Spool.Accept` | internal/manager/spool.go:82-101 | The new state is the old one with the record appended and the watermark raised, and the record is handed on for publication; a duplicate changes nothing and is not handed on. |
| `Spooling.Spool.Seal` | internal/manager/spool.go:149-218 | With any arrivals between its critical sections, on every exit: a failed seal puts the sorted batch back in front of what arrived, with its bytes; a successful one leaves what arrived and commits the highest offset of each source of the batch. |
| `Spooling.Spool.Requeue` | internal/manager/spool.go:221-231 | The failed batch goes back in front and its bytes are added record by record. |
| `Spooling.Spool.MaxOffsets` | internal/manager/spool.go:176-187 | The loop computes the highest offset of each source in the batch. |
| `Spooling.Spool.Snapshot` | internal/manager/spool.go:116-131 | The open records in range, each as often as it is buffered, in ascending order. |
| `Spooling.ConservedStep` | internal/manager/spool.go:81-231 | Every arrival, start, failure and success of a seal keeps accepted = sealed + in flight + buffered as multisets, and the byte count exact. |
| `Spooling.ConservationFromStart` | internal/manager/spool.go:54-79 | So it holds after every interleaving of arrivals with any number of seals from a fresh spool on. |
| `Spooling.AcceptedAscend` | internal/manager/spool.go:81-96 | Over every interleaving of arrivals, duplicates and seals that fail or succeed, what the spool accepts ascends strictly in offset per source, after everything earlier managers sealed. |
| `Spooling.TotalSizeOfPermutation` | internal/manager/spool.go:150-160 | Sorting the batch does not change its size, so requeueing it restores the byte count. |
| `Offsets.MaxOffIsMax` | internal/segment/writer.go:137-139 | The map of highest offsets bounds every record and each of its values is some record's offset. |
| `Offsets.MergeInto` | internal/manager/spool.go:211-215 | The merge loop raises each mark to the higher of the two and lowers none. |
| `IngestServer.Stream.Batch` | internal/ingest/server.go:72-92 | A batch is accepted in stream order, malformed records are skipped, and the ack names exactly the committed offsets of the sources seen on this stream. |
| `IngestServer.AcceptedAscend` | internal/manager/spool.go:81-96 | From a buffer in order, whatever a stream delivers, in any order and however often, the buffer stays strictly ascending in offset per source. |
| `CheckpointFile.Checkpoint.Advance` | internal/tailer/checkpoint.go:54-66 | The stored offset of a source becomes the higher of the old and the new, through its eight-byte form; other sources do not change. |
| `CheckpointFile.Checkpoint.Commit` | internal/ingest/client.go:272-295 | Applying an ack entry by entry is the pointwise maximum used in the protocol. |
| `IngestClient.Client.Enqueue` | internal/ingest/client.go:92-132 | Whatever happens to the window during each wait: the record is queued, the oldest shed with its offset committed, or the call canceled, exactly as the caps say of the first window with room; a record that does not encode changes nothing. |
| `IngestClient.Client.FlushOnce` | internal/ingest/client.go:216-251 | One flush marks and returns the unsent records that fit a batch. |
| `IngestClient.Client.ApplyAck` | internal/ingest/client.go:272-295 | Each acked offset goes to the checkpoint file, which never moves back, and the in-place compaction keeps exactly the envelopes not covered by the ack, in order, and the held bytes with them. |
| `IngestClient.FlushSendsNext` | internal/ingest/client.go:216-251 | A flush of a good window sends the next unsent records in window order, at least one if there is any, and exactly those count as sent afterwards. |
| `IngestClient.WindowAlwaysOk` | internal/ingest/client.go:92-132 | Over every interleaving of enqueue, flush, reconnect, ack and close, sent flags form a prefix and the held bytes are the sum of the held lengths. |
| `IngestClient.SoftCapHolds` | internal/ingest/client.go:92-132 | With records that fit the soft cap and a hard cap of at least twice it, the soft cap is never exceeded and nothing is dropped. |
| `IngestClient.LowHardCapDrops` | internal/ingest/client.go:99-105 | Below that, two records of the size of the soft cap already drop one. |
| `IngestClient.NoDropsIff` | internal/ingest/client.go:99-105 | Hence: no run of fitting records drops anything if and only if the hard cap is at least twice the soft cap. |
| `Tailer.FileTail.Pump` | internal/tailer/tailer.go:248-275 | One pump consumes every complete line past the offset, rewinds over an incomplete one, and emits what the fold over those lines gives. |
| `Tailer.FileTail.Consume` | internal/tailer/tailer.go:278-299 | Partial lines are folded into the next full line, with the header of the first. |
| `Tailer.IncrementalIsBatch` | internal/tailer/tailer.go:248-275 | However appends and pumps interleave, mid-line appends included, the records emitted are those of reading the file once. |
| `Tailer.TailIsGrouping` | internal/tailer/parse.go:62-82 | The fold emits one record per full line, made of the partial lines since the full line before. |
| `Tailer.OffsetsAscend` | internal/tailer/tailer.go:255-262 | Emitted offsets ascend strictly and each is just past a newline. |
| `Tailer.ResumeIsSuffix` | internal/tailer/tailer.go:186-191 | A tail started at any emitted offset emits exactly what tailing from zero emits after it. |
| `Tailer.ResumeFromCheckpoint` | internal/tailer/tailer.go:151 | From a checkpoint that is zero or an emitted offset, a restart re-emits exactly the records past it. |
| `QueryRoundTrip.ParseUndoesPrint` | internal/query/parser.go:15-33 | For every writable expression tree, lexing and parsing its printed form gives the same tree. |
| `QueryRoundTrip.WritableIff` | internal/query/parser.go:52-245 | A tree is the parse of some source if and only if it is writable, so the printer covers the parser's whole range. |
| `QueryRoundTrip.AcceptedPrintsBack` | internal/query/parser.go:15-33 | Every accepted source has a printed form with the same parse. |
| `QueryRoundTrip.Grouping` | internal/query/ast.go:5-14 | Without parentheses, not binds tighter than and, and tighter than or, and both binary operators associate to the left. |
| `QueryRoundTrip.OrBack` | internal/query/parser.go:52-68 | Parsing a printed operand of an or stops exactly at its end and goes on with the or loop. |
| `QueryRoundTrip.AndBack` | internal/query/parser.go:70-86 | The same one level down, with parentheses around an or. |
| `QueryRoundTrip.NotBack` | internal/query/parser.go:88-100 | The same for not, with parentheses around and and or. |
| `QueryRoundTrip.FieldBack` | internal/query/parser.go:141-198 | A field printed with bracketed keys classifies as the same envelope, label, annotation or body reference. |
| `QueryRoundTrip.DottedBack` | internal/query/parser.go:148-176 | A dotted path gives the same field as the bracketed one. |
| `QueryRoundTrip.OrMakes` | internal/query/parser.go:52-68 | Whatever the parser makes is a tree with well-formed fields and literals. |
| `QueryPrinter.LexUndoesRender` | internal/query/lexer.go:46-117 | The lexer splits a rendered token list back into the same tokens. |
| `QueryPrinter.ScanEscaped` | internal/query/lexer.go:136-165 | Scanning an escaped string literal gives back the string, whatever characters it holds. |
| `QueryPrinter.RegexBack` | internal/query/lexer.go:167-187 | A regular expression literal is taken verbatim, escapes included. |
| `QueryLexer.Lexer.Next` | internal/query/lexer.go:46-117 | The lexer returns the token the specification finds after white space, and stops just past it. |
| `QueryLexer.Lexer.LexString` | internal/query/lexer.go:136-165 | The scanning loop computes the unescaped text up to the closing quote, or fails at the end of the source. |
| `QueryLexer.Lexer.LexNumber` | internal/query/lexer.go:189-203 | The longest run of number characters is taken. |
| `QueryLexer.Lexer.LexIdent` | internal/query/lexer.go:205-226 | The longest run of identifier characters is taken and classified, keywords in any case. |
| `QueryParser.Parser.ParseOr` | internal/query/parser.go:52-68 | The loop over or computes the left-associated tree of the specification, token for token. |
| `QueryParser.Parser.ParsePrimary` | internal/query/parser.go:102-137 | A parenthesised expression, a comparison or a bare field, with the specification's failures. |
| `QueryParser.Parser.ParseField` | internal/query/parser.go:141-181 | The loop over dots and brackets collects exactly the specification's parts. |
| `QueryParser.ParseQuery` | internal/query/parser.go:15-33 | Lexing on demand and recursive descent together compute the specified parse, or fail exactly when it does. |
| `Query.OrderLaws` | internal/query/value.go:168-225 | Against a number or a string at most one of <, = and > holds, and one of them if and only if the two compare: neither is NaN and, against a number, the value is numeric; <= is < or =, and >= is > or =. |
| `Query.RequiredIsNecessary` | internal/query/prune.go:20-54 | Whatever matches satisfies every required predicate, through any nesting of and, or and not. |
| `Query.PruningIsSound` | internal/query/planner.go:127-147 | A segment whose summary lists the attributes of a matching record is never pruned. |
| `Query.RequiredOf` | internal/query/prune.go:20-54 | The recursion with its union and intersection loops computes the required predicates. |
| `Query.MatchesSegment` | internal/query/planner.go:127-147 | The pruning loop keeps a segment exactly when no required predicate prunes it. |
| `Executor.Run` | internal/query/planner.go:44-121 | For segments with any bounds and summaries: if it succeeds, the records emitted are the naive answer over the open buffer and the blocks it reads: filter by range and match, sort stably, take the first limit. That is the naive answer over everything if, and without a limit only if, no block it does not read holds a wanted record; with bounds and summaries that cover their records it is the one over every segment that does not fail silently. It succeeds whenever no consulted segment is broken, and whatever fails it emits wanted records in order, none more often than stored. |
| `Executor.Drain` | internal/query/planner.go:84-120 | Popping the best head until the limit yields the first records of the stable sort of the cursors, filtered; when a read fails the output is still sorted and drawn from the wanted records. |
| `Executor.PickNext` | internal/query/planner.go:161-184 | The cursor whose head sorts first, the earliest of equals, unless a read failed. |
| `Executor.OpenSegments` | internal/query/planner.go:62-75 | The kept cursors are those of the consulted segments with a head. |
| `Executor.MergeIsNaive` | internal/query/planner.go:44-121 | Merging what the kept cursors yield, filtering and limiting is the naive answer over it. |
| `Executor.AnswerIsNaive` | internal/query/planner.go:44-121 | What good bounds and summaries leave out, the query does not want. |
| `Executor.AnswerCoversIff` | internal/query/planner.go:44-121 | Leaving unread blocks out of an unlimited answer changes it if and only if one of them holds a wanted record; under a limit it changes nothing if none does. |
| `Executor.CoversIff` | internal/query/planner.go:44-121 | The same for what is filtered: an unread block with a wanted record makes it strictly fewer. |
| `Executor.GoodNothingLostIff` | internal/query/planner.go:71-74 | Where bounds and summaries cover their records, something is lost if and only if a segment that fails silently holds a wanted record. |
| `Executor.NothingSilent` | internal/query/planner.go:71-74 | There, with every consulted segment open and every block to read readable, nothing wanted is lost. |
| `SealedQueries.SilentIff` | internal/query/planner.go:71-74 | A consulted segment that the writer made fails silently if and only if some line of its first block to read is over the scanner's 16 MiB. |
| `SealedQueries.SealedReadable` | internal/query/planner.go:44-121 | A catalog of segments sealed from sorted batches whose lines fit the scanner meets what Run requires and breaks nowhere. |
| `SealedQueries.SealedServe` | internal/query/planner.go:44-121 | If every timestamp fits a 64-bit nanosecond count as well, it loses nothing. |
| `SealedQueries.SealedRecords` | internal/segment/writer.go:96-169 | Such a catalog holds the records of the batches, each as often. |
| `SealedQueries.LongLineLoses` | internal/query/planner.go:71-74 | A batch of one over-long line seals into a segment over which Run, asked for everything, reads nothing, while the answer is that record. |
| `SealedQueries.FarStampLoses` | internal/query/iter.go:57-73 | A batch of one line stamped past the 64-bit nanoseconds seals into a segment that breaks nowhere; asked for what is stamped from then on, Run reads nothing, while the answer is that record. |
| `Planner.SegIter.constructor` | internal/query/iter.go:57-73 | The cursor stands for the blocks in range, in reading order. |
| `Planner.SegIter.Load` | internal/query/iter.go:75-97 | Loading the next block yields what was still to come, or records the failure. |
| `Planner.SegIter.Peek` | internal/query/iter.go:99-108 | The head is the next record of the traversal, loading as many blocks as needed. |
| `Planner.ReverseInPlace` | internal/query/iter.go:67-71 | Swapping from both ends reverses the slice. |
| `Planner.ReadingSuffices` | internal/query/iter.go:57-73 | Skipping blocks out of range changes nothing the query wants. |
| `Planner.NotConsultedIsEmpty` | internal/query/planner.go:49-66 | A segment out of range or pruned holds nothing the query wants. |
| `Planner.KeptSuffice` | internal/query/planner.go:62-75 | The kept cursors hold everything the query wants of the segments that do not fail silently. |
| `Planner.SegmentReadsIff` | internal/query/iter.go:57-73 | Whatever its bounds, what is read of a segment has the wanted records if and only if no block that is not read holds one, and otherwise fewer. |
| `Merge.MergeStep` | internal/query/planner.go:161-184 | Taking the first best head off sorted cursors takes the head off the stable sort of their concatenation. |
| `Merge.FilterSort` | internal/query/planner.go:84-112 | Filtering and stable sorting commute. |
| `TimeOrder.SortIsStable` | internal/query/planner.go:161-184 | The reference sort keeps records of equal time in their order. |
| `TimeOrder.SortSelects` | internal/query/planner.go:161-184 | A stable sort begins with the first minimum and goes on with the sort of the rest. |
| `SegmentRoundTrip.RoundTripIff` | internal/segment/reader.go:36-164 | For every record sequence and block target: the finished file opens, its summary and index come back, and reading all blocks gives back exactly the appended sequence if and only if every encoded line with its newline is at most 16 MiB. |
| `SegmentRoundTrip.OpenFinished` | internal/segment/reader.go:36-105 | Open accepts every finished file and recovers its index, bounds and summary as the words store them. |
| `SegmentRoundTrip.IndexBackIff` | internal/segment/reader.go:76-87 | The index comes back unchanged if and only if every block's bounds fit a 64-bit nanosecond count. |
| `SegmentRoundTrip.BoundsBackIff` | internal/segment/reader.go:55-56 | The segment's bounds come back if and only if they fit; those of an empty segment do not. |
| `SegmentRoundTrip.BlockBack` | internal/segment/reader.go:134-150 | ReadBlock finds exactly the compressed bytes the writer put there. |
| `SegmentRoundTrip.TextBackIff` | internal/segment/reader.go:151-163 | The line scanner returns a block's records whole if and only if every line fits it. |
| `SegmentRoundTrip.BlocksTile` | internal/segment/writer.go:147-169 | Blocks tile the file from byte 32 to the index offset with no gap or overlap. |
| `SegmentRoundTrip.CountsSum` | internal/segment/reader.go:113-116 | Block counts sum to the number of records. |
| `SegmentRoundTrip.Layout` | internal/segment/writer.go:96-169 | Each block's bounds are exact, it meets the size target or holds one record, and under a target within an int32 its count is an int32. |
| `SegmentRoundTrip.SealedSegmentOk` | internal/segment/reader.go:76-87 | A segment written from a sorted batch has, read back, all that merging assumes of segments, and what pruning assumes if and only if every timestamp fits a 64-bit nanosecond count. |
| `SegmentRoundTrip.StoredBoundsIff` | internal/segment/reader.go:76-87 | The same for one block: its bounds as the index gives them back cover its records if and only if their timestamps fit. |
| `SegmentRoundTrip.WriteAll` | internal/manager/spool.go:169-199 | Appending a batch and finishing writes the specified file and metadata, and fails exactly when some record does not encode. |
| `SegmentWriter.SplitKeepsAll` | internal/segment/writer.go:96-111 | Dividing into blocks keeps every record, in order. |
| `SegmentWriter.SplitOk` | internal/segment/writer.go:101-107 | Every block is non-empty and within the target or a single record. |
| `SegmentWriter.PlaceLine` | internal/segment/writer.go:96-135 | Append's effect on the blocks: the file, the index, the open block and the late flag of the new division. |
| `SegmentWriter.FlushBlock` | internal/segment/writer.go:147-169 | Writes the open block and its index entry; nothing when it is empty. |
| `SegmentWriter.Writer.Append` | internal/segment/writer.go:96-145 | Keeps the writer's state that of the records so far; a record that does not encode changes nothing. |
| `SegmentWriter.Writer.Finish` | internal/segment/writer.go:174-243 | The finished file and the returned metadata describe exactly the appended records; a second call fails. |
| `SegmentWriter.IndexBytes` | internal/segment/writer.go:188-198 | The loop fills the index buffer with the entries in order. |
| `SegmentWriter.WriteFooter` | internal/segment/writer.go:245-256 | The footer buffer holds the seven words at their places, twelve zero bytes and the end magic. |
| `SegmentWriter.SortedKeys` | internal/segment/writer.go:275-282 | The keys of a set, each once, in byte order. |
| `SegmentReader.Open` | internal/segment/reader.go:36-105 | Open computes the specified result, errors included. |
| `SegmentReader.Meta` | internal/segment/reader.go:112-130 | The metadata rebuilt from footer, index and summary, with the counts added up. |
| `SegmentReader.ScanLines` | internal/segment/reader.go:151-163 | The scanner loop returns the records up to the first line that is too long or does not decode. |
| `SegmentFormat.BoundsAreExact` | internal/segment/writer.go:113-129 | The running minimum and maximum bound every record and are attained. |
| `Wire.WordOfBigEndian` | internal/segment/writer.go:192-197 | A big-endian word reads back as the value that was written. |
| `Store.Store.Seal` | internal/store/store.go:79-122 | Body, sidecar, catalog, in this order; wherever it stops, and whether or not a failed put was stored, the catalog holds only sidecars of S3, and a complete catalog stays complete on success. |
| `Store.Store.Recover` | internal/store/store.go:198-243 | Whatever is left of the catalog and whichever snapshot there is, it then holds each sidecar of S3 exactly once and nothing else; a complete catalog is left unchanged. |
| `Store.ExactCatalogsAgree` | internal/store/store.go:194-243 | Two catalogs that hold exactly the sidecars are equal up to local paths, so recovery gives back a complete catalog that was lost. |
| `Store.Store.LoadLatestSnapshot` | internal/store/store.go:247-302 | Every entry stays, afterwards every id of the newest snapshot is cataloged, and each new entry is one of that snapshot's without its local path, whose id was missing; with no snapshot nothing changes. |
| `Store.SidecarKeyBack` | internal/store/store.go:216-238 | What recovery reads off a sidecar's key is what the sidecar says. |
| `Store.Store.SourceWatermarks` | internal/store/store.go:133-147 | The highest offset of each source over all entries: a bound for all of them, attained by one. |
| `SegmentKeys.KeyGivesIdIff` | internal/store/store.go:66-72 | The id comes back from a segment's key if and only if it has no dash and no slash. |
| `SegmentKeys.ReadIdIsClean` | internal/store/store.go:317-325 | An id read from any key has neither. |
| `Catalog.KeyOrderIff` | internal/store/catalog.go:39-45 | Key order is (start, id) order if and only if both segments start on the same side of 1970. |
| `Catalog.Overlapping` | internal/store/catalog.go:86-108 | The cursor scan returns exactly the overlapping entries, once each, in key order. |
| `Catalog.ScanAscends` | internal/store/catalog.go:84-108 | From 1970 on that is ascending start order. |
| `Catalog.Has` | internal/store/catalog.go:67-82 | True exactly when some entry has the id. |
| `Wire.BigEndianOrder` | internal/store/catalog.go:42 | The byte order of big-endian words is their numeric order. |
| `Cache.DiskCache.Admit` | internal/store/cache.go:50-69 | The admitted id comes first, the others keep their order, and eviction from the back leaves what fits; only evicted files go. |
| `Cache.EvictedIsLongest` | internal/store/cache.go:82-92 | What eviction leaves is exactly the longest most-recently-used prefix that fits the cap. |
| `Cache.FrontStaysIff` | internal/store/cache.go:82-92 | The entry just admitted stays if and only if it fits the cache on its own. |
| `Cache.DiskCache.Touch` | internal/store/cache.go:71-80 | A hit moves to the front and changes nothing else. |
| `Cache.DiskCache.Remove` | internal/store/cache.go:94-104 | The entry and its file go, sizes stay consistent. |
| `Cache.DiskCache.Read` | internal/store/store.go:152-192 | A file that opens has the bytes of the S3 object; it opens exactly when it is cached, or S3 has it and it fits the cache on its own. |
| `Follow.Hub.Publish` | internal/query/hub.go:36-51 | Every subscriber is offered the record: it is queued where it matches and fits, and a full matching channel is closed and unsubscribed; nothing else changes. |
| `Follow.Hub.Subscribe` | internal/query/hub.go:61-69 | A new id with an empty open channel. |
| `Follow.Hub.Close` | internal/query/hub.go:72-79 | Closes and removes the subscription if it still stands. |
| `Follow.FeedIsFifo` | internal/query/hub.go:36-51 | Over every interleaving a subscriber gets the matching publications in order: all while subscribed, a prefix once dropped. |
| `Follow.Follower.StreamFollow` | internal/manager/http.go:208-249 | The response is the history followed by the feed without what its marks hide. |
| `Follow.NeverTwiceIff` | internal/manager/http.go:177-188 | Follow emits no (source, offset) twice if and only if the history does not, whatever order the feed comes in. |
| `Follow.MissedIff` | internal/manager/http.go:208-249 | A wanted record is missing from the response if and only if history does not hold it (it was not seen, or is stamped after the subscription) and either the feed does not hold it or history holds a later one of its source. |
| `Follow.MissedAfterScanIff` | internal/manager/http.go:208-249 | When history covers all that was accepted until the scan: if and only if it is stamped after the subscription and it is not in the feed, or a later one of its source was accepted by then and stamped no later than the subscription. |
| `Follow.CompleteIff` | internal/manager/http.go:208-249 | The response adds nothing, and holds every wanted record if and only if each one stamped after the subscription is in the feed and not overtaken in that way. |
| `Follow.FollowIsComplete` | internal/manager/http.go:208-249 | Hence, with clocks that run forward and nothing accepted before the subscription stamped after it, the response holds exactly the matching records accepted from the start time on. |
| `Follow.HiddenIff` | internal/manager/http.go:236-239 | The mark that history leaves hides a record it does not hold exactly when history holds a later one of the source. |
| `Follow.BackwardClockLoses` | internal/manager/http.go:236-239 | One such loss: of two lines of a source the later is stamped up to the subscription and the earlier after it; the earlier is lost. |
| `FollowRuns.MissedInRunIff` | internal/manager/http.go:208-249 | The same over a run of the manager, with history from the executor over segments listed first and a buffer copied later, the feed from the hub and the accepted order from the spool: missing if and only if not visible to the scan or stamped after the subscription, and published before the subscription or overtaken. |
| `FollowRuns.HistoryIsVisible` | internal/manager/http.go:216-220 | The scan answers with the wanted records among the segments it listed and the buffer it copied. |
| `FollowRuns.FedIsPublished` | internal/query/hub.go:36-51 | A subscriber that is not dropped is fed exactly the matching publications, in offset order per source. |
| `FollowRuns.VisibleIff` | internal/query/planner.go:49-82 | The scan sees every record accepted by then but those in flight when the buffer is copied and those whose seal ended since the catalog was listed. |
| `FollowRuns.SlippedIsMissed` | internal/manager/spool.go:150-160 | A record that a seal takes past the scan in this way and that was published before the subscription is missed, whatever its timestamp. |
| `FollowRuns.RunIsComplete` | internal/manager/http.go:208-249 | With no seal in flight at the copy or ended since the listing, nothing lost in silence, forward clocks and nothing accepted before the subscription stamped after it, the response holds exactly the matching records accepted from the start time on. |
| `FollowRuns.NeverTwiceInRunIff` | internal/manager/http.go:177-188 | Over a run, follow emits no (source, offset) twice if and only if the listed segments hold no wanted record twice. |
| `Follow.NaiveMembers` | internal/query/planner.go:44-121 | The history answer holds exactly the wanted records of what the scan saw. |

## Left out

- DRPC, TCP, S3 and bbolt internals: sessions are FIFO sequences that a crash or a reconnect can cut, S3 and bbolt are maps with atomic puts.
- Timers, tickers, batching delays, seal thresholds and `openSince`: when a flush, an ack or a seal happens is nondeterministic.
- When a wait ends: `Enqueue` takes what happens during each wait as an argument. A record whose encoding is longer than the soft cap and at most the hard cap waits for ever when nothing is held.
- Writes that fail: the segment writer writes to a file that accepts every byte, and `emit` to the HTTP client succeeds. A failing write ends the operation at once, and a seal then requeues its batch.
- Fields of the segment writer: they are grouped in one value (`SegmentWriter.State`) that the methods replace, so updates of single fields in place are not seen.
- The linked list of the disk cache: a sequence of ids stands for list and element pointers.
- File rotation, deletion, inode reuse and a failing `Seek`: one source is one append-only file that stays readable.
- Kubernetes enrichment, metadata gating and exclusion of pods.
- Non-ASCII query text outside string and regular expression literals: such a character is a lexing error here.
- Rounding: finite query numbers are reals.
- The size estimate of a record: `estimateSize` is a parameter of the spool.
- Retention, HTTP handling, histogram, field suggestions, web UI, flags and build information.
- Follow.FollowIsComplete: takes forward clocks and the order of feed and history as hypotheses, which the code does not enforce; `Follow.CompleteIff` has the exact condition without the clocks, and `FollowRuns` derives the rest from runs.
- FollowRuns.MissedInRunIff: records are published in the order in which they are accepted; between sources the code may publish them in another, because `Accept` publishes after it has released its lock.
- FollowRuns.RunIsComplete: is for a subscriber that keeps up and stays to the end.
- Spooling.Spool.Accept: hands the record on; that the hub offers it to every subscriber is `Follow.Hub.Publish`.
- Spooling.Spool.Seal: writer and store are one parameter that says how the seal ends; that two seals can overlap is in `Spooling.ConservedStep`.
- Tailer.FileTail.Pump: the buffered reader is a read at the offset, so the seek over an incomplete line has nothing left to undo; cancellation is not modelled.
- QueryLexer.Lexer.Next: takes ASCII white space only.
- QueryLexer.Lexer.LexIdent: takes ASCII letters and digits only.
- SegmentWriter.FlushBlock: the write of the compressed block succeeds.
- SegmentWriter.Writer.Append: the write of a block that it closes succeeds.
- SegmentWriter.Writer.Finish: the writes of block, index, summary and footer succeed.
- Store.Store.Seal: the rename that settles the local path is a parameter and admission to the cache is `Cache.DiskCache.Admit`.
- SegmentRoundTrip.RoundTripIff: says nothing of files whose sizes and counts do not fit the words that store them (`WithinWords`).
- SegmentRoundTrip.WriteAll: takes block targets below 2^31, under which the 32-bit count cannot overflow; the writer's only target is 2 MiB.
- Store.Store.Recover: listing S3 succeeds, and every sidecar in S3 is one that `Seal` put there, under an unused id without dash or slash as ULIDs are; a sidecar that does not parse or vanishes while recovery runs is not modelled.
