/**
  Tailing a growing log file (internal/tailer/tailer.go): reading the lines that
  are complete, folding CRI partial lines, and resuming from an offset.
 */
module Tailer {
  import opened Model

  /** What a tail knows besides its position. The results below hold for every
      line parser; `CriContext` is the one the tailer uses. */
  datatype Context = Context(
    source: string,
    node: string,
    namespace: string,
    pod: string,
    container: string,
    parseLine: string -> Option<CriLine>,
    bodyFor: (string, string) -> map<string, string>)

  datatype CriLine = CriLine(ts: Time, stream: string, partial: bool, message: string)

  /** The fields of a fileTail as one value. */
  datatype TailState = TailState(offset: nat, partial: string, pts: Time, pstream: string)

  /** A tail as `discover` starts it. */
  function Fresh(offset: nat): TailState {
    TailState(offset, "", ZERO_TIME, "")
  }

  // ---- Parsing one line ----

  /** The first position at or after `from` that holds c, or |s|. */
  function IndexFrom(s: string, c: char, from: nat): (i: nat)
    requires from <= |s|
    ensures from <= i <= |s|
    ensures forall k :: from <= k < i ==> s[k] != c
    ensures i < |s| ==> s[i] == c
    decreases |s| - from
  {
    if from == |s| || s[from] == c then from else IndexFrom(s, c, from + 1)
  }

  /** At most n fields of s separated by single spaces. */
  function SplitN(s: string, n: nat): seq<string>
    requires n > 0
  {
    var i := IndexFrom(s, ' ', 0);
    if n == 1 || i == |s| then [s] else [s[..i]] + SplitN(s[i + 1..], n - 1)
  }

  function ParseCRILine(line: string, parseTime: string -> Option<Time>): Option<CriLine> {
    var fields := SplitN(line, 4);
    var parts := if |fields| == 3 then fields + [""] else fields;
    if |parts| < 4 then None
    else match parseTime(parts[0])
      case None => None
      case Some(ts) => Some(CriLine(ts, parts[1], parts[2] == "P", parts[3]))
  }

  /** Tailing CRI logs; timestamp and body parsing are library functions. */
  function CriContext(source: string, node: string, namespace: string, pod: string, container: string,
                      parseTime: string -> Option<Time>, bodyFor: (string, string) -> map<string, string>): Context
  {
    Context(source, node, namespace, pod, container, line => ParseCRILine(line, parseTime), bodyFor)
  }

  function BuildRecord(ctx: Context, cl: CriLine, offset: nat): Record {
    Record(ctx.source, offset, cl.ts, ctx.namespace, ctx.pod, ctx.container, ctx.node, "", cl.stream,
           map[], map[], cl.message, ctx.bodyFor(cl.message, cl.stream))
  }

  // ---- The tail as a fold over lines ----

  /** One complete line, whose end is st.offset. */
  function Consumed(ctx: Context, st: TailState, line: string): (step: (TailState, Option<Record>))
    ensures step.0.offset == st.offset
    ensures step.1.Some? ==> step.1.value.offset == st.offset && step.1.value.source == ctx.source && step.0.partial == ""
  {
    match ctx.parseLine(line)
    case None => (st, None)
    case Some(cl) =>
      if cl.partial then
        var st1 := if st.partial == "" then st.(pts := cl.ts, pstream := cl.stream) else st;
        (st1.(partial := st1.partial + cl.message), None)
      else if st.partial != "" then
        (st.(partial := ""), Some(BuildRecord(ctx, CriLine(st.pts, st.pstream, false, st.partial + cl.message), st.offset)))
      else
        (st, Some(BuildRecord(ctx, cl, st.offset)))
  }

  function Emitted(r: Option<Record>): seq<Record> {
    if r.Some? then [r.value] else []
  }

  predicate HasLine(content: string, offset: nat) {
    offset <= |content| && IndexFrom(content, '\n', offset) < |content|
  }

  /** The step over the line that starts at st.offset. */
  function OneLine(ctx: Context, st: TailState, content: string): (step: (TailState, Option<Record>))
    requires HasLine(content, st.offset)
    ensures st.offset < step.0.offset <= |content|
  {
    var i := IndexFrom(content, '\n', st.offset);
    Consumed(ctx, st.(offset := i + 1), content[st.offset..i])
  }

  /** Everything the complete lines of `content` past st.offset lead to. */
  function Tailed(ctx: Context, st: TailState, content: string): (TailState, seq<Record>)
    decreases |content| - st.offset
  {
    if !HasLine(content, st.offset) then (st, [])
    else
      var step := OneLine(ctx, st, content);
      var rest := Tailed(ctx, step.0, content);
      (rest.0, Emitted(step.1) + rest.1)
  }

  lemma TailedStep(ctx: Context, st: TailState, content: string)
    requires HasLine(content, st.offset)
    ensures
      var step := OneLine(ctx, st, content);
      var rest := Tailed(ctx, step.0, content);
      Tailed(ctx, st, content) == (rest.0, Emitted(step.1) + rest.1)
  {
  }

  /** A tail that started at `start` is at `st`, having sent `sent`. */
  ghost predicate GotTo(ctx: Context, start: TailState, content: string, st: TailState, sent: seq<Record>) {
    && Tailed(ctx, start, content).0 == Tailed(ctx, st, content).0
    && Tailed(ctx, start, content).1 == sent + Tailed(ctx, st, content).1
  }

  lemma GotFurther(ctx: Context, start: TailState, content: string, st: TailState, sent: seq<Record>)
    requires GotTo(ctx, start, content, st, sent) && HasLine(content, st.offset)
    ensures
      var step := OneLine(ctx, st, content);
      GotTo(ctx, start, content, step.0, if step.1.Some? then sent + [step.1.value] else sent)
  {
    hide OneLine;
    TailedStep(ctx, st, content);
  }

  lemma GotToEnd(ctx: Context, start: TailState, content: string, st: TailState, sent: seq<Record>)
    requires GotTo(ctx, start, content, st, sent) && !HasLine(content, st.offset)
    ensures Tailed(ctx, start, content) == (st, sent)
  {
    assert sent + [] == sent;
  }

  /** The records a tail sends. */
  function Sent(ctx: Context, st: TailState, content: string): seq<Record> {
    Tailed(ctx, st, content).1
  }

  class FileTail {
    const ctx: Context
    var offset: nat
    var partial: string
    var pts: Time
    var pstream: string

    ghost function State(): TailState
      reads this
    {
      TailState(offset, partial, pts, pstream)
    }

    constructor (ctx: Context, checkpoint: nat)
      ensures State() == Fresh(checkpoint) && this.ctx == ctx
    {
      this.ctx := ctx;
      offset, partial, pts, pstream := checkpoint, "", ZERO_TIME, "";
    }

    /** The next line of the file, with its newline if it has one yet. */
    method ReadString(content: string) returns (line: string)
      ensures offset > |content| ==> line == ""
      ensures offset <= |content| ==>
        var i := IndexFrom(content, '\n', offset);
        line == content[offset..if i < |content| then i + 1 else i]
    {
      line := "";
      if offset > |content| {
        return;
      }
      var k := offset;
      while k < |content|
        invariant offset <= k <= |content| && line == content[offset..k]
        invariant IndexFrom(content, '\n', offset) == IndexFrom(content, '\n', k)
      {
        line := line + [content[k]];
        k := k + 1;
        if content[k - 1] == '\n' {
          return;
        }
      }
    }

    method Consume(line: string) returns (rec: Option<Record>)
      modifies this
      ensures (State(), rec) == Consumed(ctx, old(State()), line)
    {
      var parsed := ctx.parseLine(line);
      if parsed.None? {
        return None;
      }
      var cl := parsed.value;
      if cl.partial {
        if partial == "" {
          pts, pstream := cl.ts, cl.stream;
        }
        partial := partial + cl.message;
        return None;
      }
      if partial != "" {
        partial := partial + cl.message;
        cl := CriLine(pts, pstream, false, partial);
        partial := "";
      }
      rec := Some(BuildRecord(ctx, cl, offset));
    }

    /** Reads and emits every line complete in `content`, the file as it is now.
        A trailing line without newline is left for the next call. */
    method Pump(content: string) returns (sent: seq<Record>)
      modifies this
      ensures (State(), sent) == Tailed(ctx, old(State()), content)
    {
      hide Tailed, IndexFrom;
      sent := [];
      while true
        invariant GotTo(ctx, old(State()), content, State(), sent)
        decreases |content| - offset
      {
        var line := ReadString(content);
        LineEnds(content, offset, line);
        if |line| > 0 && line[|line| - 1] == '\n' {
          ghost var before := State();
          offset := offset + |line|;
          var rec := Consume(line[..|line| - 1]);
          GotFurther(ctx, old(State()), content, before, sent);
          if rec.Some? {
            sent := sent + [rec.value];
          }
          continue;
        }
        GotToEnd(ctx, old(State()), content, State(), sent);
        return;
      }
    }
  }

  lemma LineEnds(content: string, offset: nat, line: string)
    requires offset > |content| ==> line == ""
    requires offset <= |content| ==>
      var i := IndexFrom(content, '\n', offset);
      line == content[offset..if i < |content| then i + 1 else i]
    ensures HasLine(content, offset) <==> |line| > 0 && line[|line| - 1] == '\n'
    ensures HasLine(content, offset) ==>
      var i := IndexFrom(content, '\n', offset);
      offset + |line| == i + 1 && line[..|line| - 1] == content[offset..i]
  {
  }

  // ---- Incremental tailing equals batch tailing ----

  /** Pumps of a file that only grows. */
  function Pumped(ctx: Context, st: TailState, contents: seq<string>): (TailState, seq<Record>)
    decreases |contents|
  {
    if contents == [] then (st, [])
    else
      var first := Tailed(ctx, st, contents[0]);
      var rest := Pumped(ctx, first.0, contents[1..]);
      (rest.0, first.1 + rest.1)
  }

  predicate Growing(contents: seq<string>) {
    forall i :: 0 < i < |contents| ==> contents[i - 1] <= contents[i]
  }

  lemma {:induction false} IndexInPrefix(a: string, b: string, from: nat)
    requires a <= b && from <= |a|
    ensures IndexFrom(a, '\n', from) < |a| ==> IndexFrom(b, '\n', from) == IndexFrom(a, '\n', from)
    decreases |a| - from
  {
    if from < |a| && a[from] != '\n' {
      IndexInPrefix(a, b, from + 1);
    }
  }

  lemma OneLineInPrefix(ctx: Context, st: TailState, a: string, b: string)
    requires a <= b && HasLine(a, st.offset)
    ensures HasLine(b, st.offset) && OneLine(ctx, st, b) == OneLine(ctx, st, a)
  {
    IndexInPrefix(a, b, st.offset);
    var i := IndexFrom(a, '\n', st.offset);
    assert a[st.offset..i] == b[st.offset..i];
  }

  /** Going on with more of the file gives what reading it at once gives. */
  lemma NothingTailed(ctx: Context, st: TailState, content: string)
    requires !HasLine(content, st.offset)
    ensures Tailed(ctx, st, content) == (st, [])
  {
  }

  lemma {:induction false} TailedGrows(ctx: Context, st: TailState, a: string, b: string)
    requires a <= b
    ensures Tailed(ctx, st, b).0 == Tailed(ctx, Tailed(ctx, st, a).0, b).0
    ensures Tailed(ctx, st, b).1 == Tailed(ctx, st, a).1 + Tailed(ctx, Tailed(ctx, st, a).0, b).1
    decreases |a| - st.offset
  {
    hide OneLine, Tailed, HasLine, Emitted;
    if HasLine(a, st.offset) {
      OneLineInPrefix(ctx, st, a, b);
      TailedStep(ctx, st, a);
      TailedStep(ctx, st, b);
      TailedGrows(ctx, OneLine(ctx, st, a).0, a, b);
    } else {
      NothingTailed(ctx, st, a);
    }
  }

  /** However appends and pumps interleave, the tail has emitted what one read
      of the file as it is at the last pump emits. */
  lemma {:induction false} IncrementalIsBatch(ctx: Context, st: TailState, contents: seq<string>)
    requires contents != [] && Growing(contents)
    ensures Pumped(ctx, st, contents) == Tailed(ctx, st, contents[|contents| - 1])
    decreases |contents|
  {
    var first := Tailed(ctx, st, contents[0]);
    if |contents| == 1 {
      assert contents[1..] == [] && first.1 + [] == first.1;
    } else {
      var rest := contents[1..];
      assert forall i :: 0 < i < |rest| ==> rest[i - 1] == contents[i] && rest[i] == contents[i + 1];
      IncrementalIsBatch(ctx, first.0, rest);
      FirstIsPrefix(contents, |contents| - 1);
      TailedGrows(ctx, st, contents[0], contents[|contents| - 1]);
    }
  }

  lemma {:induction false} FirstIsPrefix(contents: seq<string>, k: nat)
    requires Growing(contents) && k < |contents|
    ensures contents[0] <= contents[k]
  {
    if k > 0 {
      FirstIsPrefix(contents, k - 1);
    }
  }

  // ---- What the fold means ----

  /** A parsed line and the offset of its end. */
  datatype Piece = Piece(cl: CriLine, end: nat)

  function PieceOf(ctx: Context, line: string, end: nat): seq<Piece> {
    match ctx.parseLine(line)
    case None => []
    case Some(cl) => [Piece(cl, end)]
  }

  /** The lines of `content` from `from` on that are complete and parse. */
  function Pieces(ctx: Context, content: string, from: nat): seq<Piece>
    decreases |content| - from
  {
    if !HasLine(content, from) then []
    else
      var i := IndexFrom(content, '\n', from);
      PieceOf(ctx, content[from..i], i + 1) + Pieces(ctx, content, i + 1)
  }

  function FirstFull(ps: seq<Piece>): (f: nat)
    ensures f <= |ps|
    ensures forall k :: 0 <= k < f ==> ps[k].cl.partial
    ensures f < |ps| ==> !ps[f].cl.partial
  {
    if ps == [] || !ps[0].cl.partial then 0 else 1 + FirstFull(ps[1..])
  }

  function Message(ps: seq<Piece>): string {
    if ps == [] then "" else ps[0].cl.message + Message(ps[1..])
  }

  /** Timestamp and stream come from the first piece with text, the full line
      when no partial line before it has any. */
  function Header(parts: seq<Piece>, full: Piece): CriLine {
    if parts == [] then full.cl
    else if parts[0].cl.message != "" then parts[0].cl
    else Header(parts[1..], full)
  }

  /** The record of a full line and the partial lines that lead up to it. */
  function Assembled(ctx: Context, parts: seq<Piece>, full: Piece): Record {
    var h := Header(parts, full);
    BuildRecord(ctx, CriLine(h.ts, h.stream, false, Message(parts) + full.cl.message), full.end)
  }

  /** One record per full line, made of the partial lines since the one before. */
  function Grouped(ctx: Context, ps: seq<Piece>): seq<Record>
    decreases |ps|
  {
    var f := FirstFull(ps);
    if f == |ps| then [] else [Assembled(ctx, ps[..f], ps[f])] + Grouped(ctx, ps[f + 1..])
  }

  lemma {:induction false} MessageConcat(a: seq<Piece>, b: seq<Piece>)
    ensures Message(a + b) == Message(a) + Message(b)
  {
    if a == [] {
      assert a + b == b;
    } else {
      assert (a + b)[1..] == a[1..] + b;
      MessageConcat(a[1..], b);
    }
  }

  lemma {:induction false} HeaderConcat(a: seq<Piece>, b: seq<Piece>, full: Piece)
    ensures Message(a) != "" ==> forall other :: Header(a + b, full) == Header(a, other)
    ensures Message(a) == "" ==> Header(a + b, full) == Header(b, full)
  {
    if a == [] {
      assert a + b == b;
    } else {
      assert (a + b)[1..] == a[1..] + b;
      HeaderConcat(a[1..], b, full);
    }
  }

  /** The partial lines `parts` have been folded into st. */
  ghost predicate Folded(st: TailState, parts: seq<Piece>) {
    && (forall k :: 0 <= k < |parts| ==> parts[k].cl.partial)
    && st.partial == Message(parts)
    && (st.partial != "" ==> forall full :: Header(parts, full).ts == st.pts && Header(parts, full).stream == st.pstream)
  }

  lemma FoldedStep(ctx: Context, st: TailState, parts: seq<Piece>, line: string)
    requires Folded(st, parts)
    ensures
      var step := Consumed(ctx, st, line);
      match ctx.parseLine(line)
      case None => step == (st, None)
      case Some(cl) =>
        if cl.partial then step.1 == None && step.0.offset == st.offset && Folded(step.0, parts + [Piece(cl, st.offset)])
        else step.1 == Some(Assembled(ctx, parts, Piece(cl, st.offset))) && step.0.offset == st.offset && Folded(step.0, [])
  {
    var parsed := ctx.parseLine(line);
    if parsed.Some? {
      var p := Piece(parsed.value, st.offset);
      MessageConcat(parts, [p]);
      assert Message([p]) == p.cl.message + Message([]) == p.cl.message by { assert [p][1..] == []; }
      if p.cl.partial {
        forall full ensures Message(parts + [p]) != "" ==>
          Header(parts + [p], full) == (if Message(parts) != "" then Header(parts, full) else p.cl)
        {
          HeaderConcat(parts, [p], full);
          assert [p][1..] == [];
        }
      } else {
        HeaderConcat(parts, [], p);
        assert parts + [] == parts && "" + p.cl.message == p.cl.message;
        assert Header([], p) == p.cl;
      }
    }
  }

  lemma {:induction false} FirstFullAfter(parts: seq<Piece>, ps: seq<Piece>)
    requires forall k :: 0 <= k < |parts| ==> parts[k].cl.partial
    ensures FirstFull(parts + ps) == |parts| + FirstFull(ps)
  {
    if parts == [] {
      assert parts + ps == ps;
    } else {
      assert (parts + ps)[1..] == parts[1..] + ps;
      FirstFullAfter(parts[1..], ps);
    }
  }

  /** The partial lines pending after one more line. */
  function Pending(ctx: Context, parts: seq<Piece>, line: string, end: nat): seq<Piece> {
    match ctx.parseLine(line)
    case None => parts
    case Some(cl) => if cl.partial then parts + [Piece(cl, end)] else []
  }

  lemma GroupedStep(ctx: Context, st: TailState, parts: seq<Piece>, line: string, more: seq<Piece>)
    requires Folded(st, parts)
    ensures
      var step := Consumed(ctx, st, line);
      var pending := Pending(ctx, parts, line, st.offset);
      && Folded(step.0, pending)
      && Grouped(ctx, parts + (PieceOf(ctx, line, st.offset) + more)) == Emitted(step.1) + Grouped(ctx, pending + more)
  {
    FoldedStep(ctx, st, parts, line);
    var parsed := ctx.parseLine(line);
    if parsed.None? {
      assert [] + more == more;
    } else {
      var p := Piece(parsed.value, st.offset);
      if p.cl.partial {
        assert parts + ([p] + more) == parts + [p] + more;
      } else {
        assert [] + more == more;
        GroupedAfter(ctx, parts, p, more);
      }
    }
  }

  /** The fold emits the grouped records. */
  lemma {:induction false} TailedGroups(ctx: Context, st: TailState, content: string, parts: seq<Piece>)
    requires Folded(st, parts)
    ensures Tailed(ctx, st, content).1 == Grouped(ctx, parts + Pieces(ctx, content, st.offset))
    decreases |content| - st.offset
  {
    hide Tailed, Grouped;
    if !HasLine(content, st.offset) {
      NothingTailed(ctx, st, content);
      NothingGrouped(ctx, parts);
      assert parts + Pieces(ctx, content, st.offset) == parts;
    } else {
      var i := IndexFrom(content, '\n', st.offset);
      var line := content[st.offset..i];
      var step := OneLine(ctx, st, content);
      TailedStep(ctx, st, content);
      GroupedStep(ctx, st.(offset := i + 1), parts, line, Pieces(ctx, content, i + 1));
      TailedGroups(ctx, step.0, content, Pending(ctx, parts, line, i + 1));
    }
  }

  lemma NothingGrouped(ctx: Context, parts: seq<Piece>)
    requires forall k :: 0 <= k < |parts| ==> parts[k].cl.partial
    ensures Grouped(ctx, parts) == []
  {
    FirstFullAfter(parts, []);
    assert parts + [] == parts;
  }

  lemma GroupedAfter(ctx: Context, parts: seq<Piece>, p: Piece, more: seq<Piece>)
    requires !p.cl.partial && forall k :: 0 <= k < |parts| ==> parts[k].cl.partial
    ensures Grouped(ctx, parts + ([p] + more)) == [Assembled(ctx, parts, p)] + Grouped(ctx, more)
  {
    hide Assembled, FirstFull;
    var all := parts + ([p] + more);
    FirstFullAfter(parts, [p] + more);
    assert all[..|parts|] == parts && all[|parts|] == p && all[|parts| + 1..] == more;
  }

  /** A tail that starts at an offset emits one record per full line after it. */
  lemma TailIsGrouping(ctx: Context, content: string, from: nat)
    ensures Tailed(ctx, Fresh(from), content).1 == Grouped(ctx, Pieces(ctx, content, from))
  {
    TailedGroups(ctx, Fresh(from), content, []);
    assert [] + Pieces(ctx, content, from) == Pieces(ctx, content, from);
  }

  /** A line ends just past its newline, and a record ends where its line does. */
  lemma LineOffsets(ctx: Context, st: TailState, content: string)
    requires HasLine(content, st.offset)
    ensures
      var step := OneLine(ctx, st, content);
      && content[step.0.offset - 1] == '\n'
      && (step.1.Some? ==> step.1.value.source == ctx.source && step.1.value.offset == step.0.offset)
  {
  }

  // ---- Offsets and resumption ----

  /** Offsets ascend strictly, and each is just past a newline. */
  lemma {:induction false} OffsetsAscend(ctx: Context, st: TailState, content: string)
    ensures
      var rs := Sent(ctx, st, content);
      && (forall k :: 0 <= k < |rs| ==> rs[k].source == ctx.source && st.offset < rs[k].offset <= |content| && content[rs[k].offset - 1] == '\n')
      && (forall j, k :: 0 <= j < k < |rs| ==> rs[j].offset < rs[k].offset)
    decreases |content| - st.offset
  {
    hide OneLine, Tailed, HasLine;
    if HasLine(content, st.offset) {
      var step := OneLine(ctx, st, content);
      OffsetsAscend(ctx, step.0, content);
      TailedStep(ctx, st, content);
      LineOffsets(ctx, st, content);
      assert Sent(ctx, st, content) == Emitted(step.1) + Sent(ctx, step.0, content);
    } else {
      NothingTailed(ctx, st, content);
    }
  }

  /** With nothing folded, the remembered header does not matter. */
  lemma HeaderIsForgotten(ctx: Context, st: TailState, content: string)
    requires st.partial == ""
    ensures Sent(ctx, st, content) == Sent(ctx, Fresh(st.offset), content)
  {
    TailedGroups(ctx, st, content, []);
    TailedGroups(ctx, Fresh(st.offset), content, []);
  }

  /** Resume is a suffix: a tail started at an emitted offset emits exactly what
      the first tail emits after that offset. */
  lemma {:induction false} ResumeIsSuffix(ctx: Context, st: TailState, content: string, k: nat)
    requires k < |Sent(ctx, st, content)|
    ensures
      var rs := Sent(ctx, st, content);
      rs[k].offset > 0 && Sent(ctx, Fresh(rs[k].offset), content) == rs[k + 1..]
    decreases |content| - st.offset
  {
    hide IndexFrom;
    OffsetsAscend(ctx, st, content);
    var step := OneLine(ctx, st, content);
    var rs, rest := Sent(ctx, st, content), Sent(ctx, step.0, content);
    if step.1.Some? {
      assert rs == [step.1.value] + rest;
      if k == 0 {
        HeaderIsForgotten(ctx, step.0, content);
        assert rs[1..] == rest;
      } else {
        ResumeIsSuffix(ctx, step.0, content, k - 1);
        assert rs[k] == rest[k - 1] && rs[k + 1..] == rest[k..];
      }
    } else {
      assert rs == rest;
      ResumeIsSuffix(ctx, step.0, content, k);
    }
  }

  /** Resuming at any checkpoint that is zero or an emitted offset re-emits
      exactly the records past it. */
  lemma ResumeFromCheckpoint(ctx: Context, content: string, checkpoint: nat)
    requires checkpoint == 0 || exists r :: r in Sent(ctx, Fresh(0), content) && r.offset == checkpoint
    ensures Sent(ctx, Fresh(checkpoint), content) == Past(Sent(ctx, Fresh(0), content), checkpoint)
  {
    var start := Fresh(0);
    OffsetsAscend(ctx, start, content);
    if checkpoint == 0 {
      PastAll(Sent(ctx, start, content));
    } else {
      var k :| 0 <= k < |Sent(ctx, start, content)| && Sent(ctx, start, content)[k].offset == checkpoint;
      ResumeIsSuffix(ctx, start, content, k);
      PastOne(Sent(ctx, start, content), k);
    }
  }

  lemma PastAll(rs: seq<Record>)
    requires forall i :: 0 <= i < |rs| ==> rs[i].offset > 0
    ensures Past(rs, 0) == rs
  {
    PastIsSuffix(rs, 0, 0);
  }

  lemma PastOne(rs: seq<Record>, k: nat)
    requires k < |rs| && forall i, j :: 0 <= i < j < |rs| ==> rs[i].offset < rs[j].offset
    ensures Past(rs, rs[k].offset) == rs[k + 1..]
  {
    PastIsSuffix(rs, rs[k].offset, k + 1);
  }

  function Past(rs: seq<Record>, offset: int): seq<Record> {
    if rs == [] then [] else (if rs[0].offset > offset then [rs[0]] else []) + Past(rs[1..], offset)
  }

  lemma {:induction false} PastIsSuffix(rs: seq<Record>, offset: int, k: nat)
    requires k <= |rs|
    requires forall i :: 0 <= i < |rs| ==> (rs[i].offset > offset <==> i >= k)
    ensures Past(rs, offset) == rs[k..]
  {
    if rs != [] {
      assert forall i :: 0 <= i < |rs[1..]| ==> rs[1..][i] == rs[i + 1];
      PastIsSuffix(rs[1..], offset, if k > 0 then k - 1 else 0);
    }
  }
}
