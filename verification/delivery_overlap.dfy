/**
  What serial seals are needed for: a concrete run in which two seals overlap,
  as a shutdown seal can overlap one of the seal loop
  (internal/manager/manager.go:78-87), and an acked record is lost.
 */
module DeliveryOverlap {
  import opened Model
  import opened Offsets
  import opened Delivery
  import DeliveryRuns
  import S = Spooling
  import C = IngestClient

  function Line(offset: int): Record {
    Record("s", offset, 0, "", "", "", "", "", "", map[], map[], "", map[])
  }

  const R1 := Line(1)
  const R2 := Line(2)
  const CFG := Config(C.Caps(10, 20, 1), (r: Record) => 1, (r: Record) => 1)

  ghost function World(ag: Agent, m: Manager, s3: ObjectStore): State {
    State(map["s" := [R1, R2]], map[0 := ag], m, s3, {})
  }

  const NO_S3 := ObjectStore(map[], [])

  /** An agent with one live session, as it reads, flushes and delivers r. */
  function Ag(read: map<string, int>, es: seq<C.Envelope>, data: seq<Record>, seen: set<string>): Agent {
    Agent(map[], read, C.Window(es, |es|, 0, false), [Session(data, [], seen)], true)
  }

  lemma ReadOne(r: Record, read: map<string, int>, es: seq<C.Envelope>, seen: set<string>)
    requires |es| < 10
    ensures AfterRead(Ag(read, es, [], seen), r, 1, CFG.caps)
         == Ag(read[r.source := r.offset], es + [C.Envelope(r, 1, false)], [], seen)
  {
  }

  lemma FlushOne(r: Record, read: map<string, int>, es: seq<C.Envelope>, seen: set<string>)
    requires |es| <= 1 && forall i :: 0 <= i < |es| ==> es[i].sent
    ensures AfterFlush(Ag(read, es + [C.Envelope(r, 1, false)], [], seen), CFG.caps)
         == Ag(read, es + [C.Envelope(r, 1, true)], [r], seen)
  {
    var es1 := es + [C.Envelope(r, 1, false)];
    assert C.Picked(es1, |es|, 0, 1) == [|es|];
    assert C.Picked(es1, 0, 0, 1) == [|es|];
    assert C.Marked(es1, [|es|]) == es + [C.Envelope(r, 1, true)];
    assert C.RecordsAt(es1, [|es|]) == [r];
    assert [] + [r] == [r];
  }

  lemma NextLine(a: State, read: map<string, int>, r: Record)
    requires a.log == map["s" := [R1, R2]]
    requires (r == R1 && read == map[]) || (r == R2 && read == map["s" := 1])
    ensures IsNext(a.log, At(read, "s"), r)
  {
    assert a.log["s"][r.offset - 1] == r;
  }

  lemma DeliverOne(c: State, r: Record, read: map<string, int>, es: seq<C.Envelope>, seen: set<string>, received: map<string, int>, flights: seq<Flight>)
    requires r.source == "s" && At(received, "s") < r.offset && received["s" := r.offset] == map["s" := r.offset] && seen + {"s"} == {"s"}
    requires c == World(Ag(read, es, [r], seen), Up(S.SpoolState([], 0, received, map[]), flights), NO_S3)
    ensures Enabled(c, Deliver(0, 0), CFG)
    ensures Apply(c, Deliver(0, 0), CFG)
         == World(Ag(read, es, [], {"s"}), Up(S.SpoolState([r], 1, map["s" := r.offset], map[]), flights), NO_S3)
  {
    var ag := c.agents[0];
    var s' := Session([], [], {"s"});
    assert [r][1..] == [] && seen + {r.source} == {"s"};
    assert ag.sessions[0 := s'] == [s'];
    assert [] + [r] == [r];
  }

  lemma ReadStep(c: State, r: Record, read: map<string, int>, es: seq<C.Envelope>, seen: set<string>, m: Manager)
    requires c == World(Ag(read, es, [], seen), m, NO_S3)
    requires (r == R1 && read == map[] && es == []) || (r == R2 && read == map["s" := 1] && |es| == 1)
    ensures Enabled(c, Read(0, r), CFG)
    ensures Apply(c, Read(0, r), CFG) == World(Ag(map["s" := r.offset], es + [C.Envelope(r, 1, false)], [], seen), m, NO_S3)
  {
    NextLine(c, read, r);
    ReadOne(r, read, es, seen);
    assert read["s" := r.offset] == map["s" := r.offset];
  }

  lemma FlushStep(c: State, r: Record, read: map<string, int>, es: seq<C.Envelope>, seen: set<string>, m: Manager)
    requires c == World(Ag(read, es + [C.Envelope(r, 1, false)], [], seen), m, NO_S3)
    requires |es| <= 1 && forall i :: 0 <= i < |es| ==> es[i].sent
    ensures Enabled(c, Flush(0), CFG)
    ensures Apply(c, Flush(0), CFG) == World(Ag(read, es + [C.Envelope(r, 1, true)], [r], seen), m, NO_S3)
  {
    FlushOne(r, read, es, seen);
  }

  const E1 := C.Envelope(R1, 1, true)
  const E2 := C.Envelope(R2, 1, true)
  const F1 := Flight([R1], "A", Writing)
  const F2 := Flight([R2], "B", Writing)
  const ONE: map<string, int> := map["s" := 1]
  const TWO: map<string, int> := map["s" := 2]

  function Spool(buf: seq<Record>, received: map<string, int>, committed: map<string, int>): S.SpoolState {
    S.SpoolState(buf, |buf|, received, committed)
  }

  lemma BeginOne(c: State, r: Record, id: string, ag: Agent, received: map<string, int>, flights: seq<Flight>)
    requires c == World(ag, Up(Spool([r], received, map[]), flights), NO_S3)
    requires forall k :: 0 <= k < |flights| ==> flights[k].id != id
    ensures Enabled(c, BeginSeal([r], id), CFG)
    ensures Apply(c, BeginSeal([r], id), CFG)
         == World(ag, Up(Spool([], received, map[]), flights + [Flight([r], id, Writing)]), NO_S3)
  {
  }

  // ---- The run, step by step ----

  ghost predicate Chain(s: seq<State>, steps: seq<Step>) {
    && |s| == |steps| + 1
    && forall i :: 0 <= i < |steps| ==> Enabled(s[i], steps[i], CFG) && s[i + 1] == Apply(s[i], steps[i], CFG)
  }

  lemma Extend(s: seq<State>, steps: seq<Step>, step: Step, next: State)
    requires Chain(s, steps) && Enabled(s[|steps|], step, CFG) && next == Apply(s[|steps|], step, CFG)
    ensures Chain(s + [next], steps + [step]) && (s + [next])[|steps| + 1] == next
    ensures (s + [next])[0] == s[0]
  {
  }

  lemma Join(s: seq<State>, p: seq<Step>, t: seq<State>, q: seq<Step>)
    requires Chain(s, p) && Chain(t, q) && s[|p|] == t[0]
    ensures Chain(s[..|p|] + t, p + q) && (s[..|p|] + t)[0] == s[0] && (s[..|p|] + t)[|p + q|] == t[|q|]
  {
    var u := s[..|p|] + t;
    assert forall i :: 0 <= i <= |p| ==> u[i] == s[i];
    forall i | 0 <= i < |p + q| ensures Enabled(u[i], (p + q)[i], CFG) && u[i + 1] == Apply(u[i], (p + q)[i], CFG) {
      if i >= |p| { assert u[i] == t[i - |p|] && u[i + 1] == t[i - |p| + 1]; }
    }
  }

  const P1: seq<Step> := [ManagerRecover, Append(R1), Append(R2), Connect(0)]
  const P2: seq<Step> := [Read(0, R1), Flush(0), Deliver(0, 0), BeginSeal([R1], "A")]
  const P3: seq<Step> := [Read(0, R2), Flush(0), Deliver(0, 0), BeginSeal([R2], "B")]
  const P4: seq<Step> := [PutBody(1), PutSidecar(1), FinishSeal(1)]
  const P5: seq<Step> := [SendAck(0, 0), ApplyAck(0, 0), ManagerCrash]

  ghost function Started(log: map<string, seq<Record>>, m: Manager): State {
    State(log, map[0 := Agent(map[], map[], C.EMPTY, [], false)], m, NO_S3, {})
  }

  const IDLE := Up(S.SpoolState([], 0, map[], map[]), [])

  lemma OpeningLines()
    ensures Enabled(Started(map[], IDLE), Append(R1), CFG) && Apply(Started(map[], IDLE), Append(R1), CFG) == Started(map["s" := [R1]], IDLE)
    ensures Enabled(Started(map["s" := [R1]], IDLE), Append(R2), CFG)
    ensures Apply(Started(map["s" := [R1]], IDLE), Append(R2), CFG) == Started(map["s" := [R1, R2]], IDLE)
  {
    assert [] + [R1] == [R1] && [R1] + [R2] == [R1, R2];
    assert map[]["s" := [R1]] == map["s" := [R1]];
    assert map["s" := [R1]]["s" := [R1, R2]] == map["s" := [R1, R2]];
  }

  lemma OpeningConnect()
    ensures Enabled(Started(map["s" := [R1, R2]], IDLE), Connect(0), CFG)
    ensures Apply(Started(map["s" := [R1, R2]], IDLE), Connect(0), CFG) == World(Ag(map[], [], [], {}), IDLE, NO_S3)
  {
    assert C.Unsent([]) == [] && [] + [Session([], [], {})] == [Session([], [], {})];
  }

  lemma ChainStart(s: State)
    ensures Chain([s], [])
  {
  }

  lemma OpeningStart()
    ensures Initial(Started(map[], Down))
    ensures Enabled(Started(map[], Down), ManagerRecover, CFG) && Apply(Started(map[], Down), ManagerRecover, CFG) == Started(map[], IDLE)
  {
  }

  lemma Opening() returns (s: seq<State>)
    ensures Chain(s, P1) && Initial(s[0]) && s[4] == World(Ag(map[], [], [], {}), IDLE, NO_S3)
  {
    hide Chain, Enabled, Apply, Initial;
    OpeningStart();
    ChainStart(Started(map[], Down));
    s := [Started(map[], Down)];
    Extend(s, [], ManagerRecover, Started(map[], IDLE));
    s := s + [Started(map[], IDLE)];
    OpeningLines();
    Extend(s, [] + [ManagerRecover], Append(R1), Started(map["s" := [R1]], IDLE));
    s := s + [Started(map["s" := [R1]], IDLE)];
    Extend(s, [] + [ManagerRecover] + [Append(R1)], Append(R2), Started(map["s" := [R1, R2]], IDLE));
    s := s + [Started(map["s" := [R1, R2]], IDLE)];
    OpeningConnect();
    Extend(s, [] + [ManagerRecover] + [Append(R1)] + [Append(R2)], Connect(0), World(Ag(map[], [], [], {}), IDLE, NO_S3));
    s := s + [World(Ag(map[], [], [], {}), IDLE, NO_S3)];
    assert P1 == [] + [ManagerRecover] + [Append(R1)] + [Append(R2)] + [Connect(0)];
  }

  /** Reading, sending and delivering one line, and starting its seal. */
  lemma Half(r: Record, id: string, read: map<string, int>, es: seq<C.Envelope>, flights: seq<Flight>, received: map<string, int>, seen: set<string>)
    returns (s: seq<State>)
    requires (r == R1 && read == map[] && es == [] && received == map[] && seen == {})
          || (r == R2 && read == ONE && es == [E1] && received == ONE && seen == {"s"})
    requires forall k :: 0 <= k < |flights| ==> flights[k].id != id
    ensures Chain(s, [Read(0, r), Flush(0), Deliver(0, 0), BeginSeal([r], id)])
    ensures s[0] == World(Ag(read, es, [], seen), Up(S.SpoolState([], 0, received, map[]), flights), NO_S3)
    ensures
      var off: map<string, int> := map["s" := r.offset];
      s[4] == World(Ag(off, es + [C.Envelope(r, 1, true)], [], {"s"}), Up(Spool([], off, map[]), flights + [Flight([r], id, Writing)]), NO_S3)
  {
    var t := Sending(r, read, es, flights, received, seen);
    var u := Receiving(r, id, es, flights, received, seen);
    Join(t, [Read(0, r), Flush(0)], u, [Deliver(0, 0), BeginSeal([r], id)]);
    s := t[..2] + u;
    assert [Read(0, r), Flush(0), Deliver(0, 0), BeginSeal([r], id)] == [Read(0, r), Flush(0)] + [Deliver(0, 0), BeginSeal([r], id)];
  }

  ghost function OnTheWay(r: Record, es: seq<C.Envelope>, flights: seq<Flight>, received: map<string, int>, seen: set<string>): State {
    World(Ag(map["s" := r.offset], es + [C.Envelope(r, 1, true)], [r], seen), Up(S.SpoolState([], 0, received, map[]), flights), NO_S3)
  }

  lemma Sending(r: Record, read: map<string, int>, es: seq<C.Envelope>, flights: seq<Flight>, received: map<string, int>, seen: set<string>)
    returns (s: seq<State>)
    requires (r == R1 && read == map[] && es == []) || (r == R2 && read == ONE && es == [E1])
    ensures Chain(s, [Read(0, r), Flush(0)]) && s[2] == OnTheWay(r, es, flights, received, seen)
    ensures s[0] == World(Ag(read, es, [], seen), Up(S.SpoolState([], 0, received, map[]), flights), NO_S3)
  {
    hide Chain, Enabled, Apply;
    var m := Up(S.SpoolState([], 0, received, map[]), flights);
    var a := World(Ag(read, es, [], seen), m, NO_S3);
    ChainStart(a);
    ReadStep(a, r, read, es, seen, m);
    var b := Apply(a, Read(0, r), CFG);
    FlushStep(b, r, map["s" := r.offset], es, seen, m);
    Extend([a], [], Read(0, r), b);
    Extend([a] + [b], [] + [Read(0, r)], Flush(0), Apply(b, Flush(0), CFG));
    s := [a] + [b] + [Apply(b, Flush(0), CFG)];
    assert [Read(0, r), Flush(0)] == [] + [Read(0, r)] + [Flush(0)];
  }

  lemma Receiving(r: Record, id: string, es: seq<C.Envelope>, flights: seq<Flight>, received: map<string, int>, seen: set<string>)
    returns (s: seq<State>)
    requires (r == R1 && received == map[] && seen == {}) || (r == R2 && received == ONE && seen == {"s"})
    requires forall k :: 0 <= k < |flights| ==> flights[k].id != id
    ensures Chain(s, [Deliver(0, 0), BeginSeal([r], id)]) && s[0] == OnTheWay(r, es, flights, received, seen)
    ensures
      var off: map<string, int> := map["s" := r.offset];
      s[2] == World(Ag(off, es + [C.Envelope(r, 1, true)], [], {"s"}), Up(Spool([], off, map[]), flights + [Flight([r], id, Writing)]), NO_S3)
  {
    hide Chain, Enabled, Apply;
    var off: map<string, int> := map["s" := r.offset];
    var c := OnTheWay(r, es, flights, received, seen);
    ChainStart(c);
    assert received["s" := r.offset] == off && seen + {"s"} == {"s"};
    DeliverOne(c, r, off, es + [C.Envelope(r, 1, true)], seen, received, flights);
    var d := Apply(c, Deliver(0, 0), CFG);
    BeginOne(d, r, id, Ag(off, es + [C.Envelope(r, 1, true)], [], {"s"}), off, flights);
    Extend([c], [], Deliver(0, 0), d);
    Extend([c] + [d], [] + [Deliver(0, 0)], BeginSeal([r], id), Apply(d, BeginSeal([r], id), CFG));
    s := [c] + [d] + [Apply(d, BeginSeal([r], id), CFG)];
    assert [Deliver(0, 0), BeginSeal([r], id)] == [] + [Deliver(0, 0)] + [BeginSeal([r], id)];
  }

  const STORED := ObjectStore(map["B" := [R2]], [])
  const SEALED := ObjectStore(map["B" := [R2]], [Sidecar("B", TWO)])

  ghost function Racing(p: Phase, s3: ObjectStore): State {
    World(Ag(TWO, [E1, E2], [], {"s"}), Up(S.SpoolState([], 0, TWO, map[]), [F1, F2.(phase := p)]), s3)
  }

  const WON := Up(S.SpoolState([], 0, TWO, TWO), [F1])

  lemma Uploads()
    ensures Enabled(Racing(Writing, NO_S3), PutBody(1), CFG)
    ensures Apply(Racing(Writing, NO_S3), PutBody(1), CFG) == Racing(BodyStored, STORED)
    ensures Enabled(Racing(BodyStored, STORED), PutSidecar(1), CFG)
    ensures Apply(Racing(BodyStored, STORED), PutSidecar(1), CFG) == Racing(Discoverable, SEALED)
  {
    MaxOffOne();
    assert [F1, F2][1 := F2.(phase := BodyStored)] == [F1, F2.(phase := BodyStored)];
    assert [F1, F2.(phase := BodyStored)][1 := F2.(phase := Discoverable)] == [F1, F2.(phase := Discoverable)];
    assert [] + [Sidecar("B", TWO)] == [Sidecar("B", TWO)];
  }

  lemma Commits()
    ensures Enabled(Racing(Discoverable, SEALED), FinishSeal(1), CFG)
    ensures Apply(Racing(Discoverable, SEALED), FinishSeal(1), CFG) == World(Ag(TWO, [E1, E2], [], {"s"}), WON, SEALED)
  {
    MaxOffOne();
    var fs := [F1, F2.(phase := Discoverable)];
    assert fs[..1] + fs[2..] == [F1];
  }

  lemma SecondWins() returns (s: seq<State>)
    ensures Chain(s, P4) && s[0] == Racing(Writing, NO_S3) && s[3] == World(Ag(TWO, [E1, E2], [], {"s"}), WON, SEALED)
  {
    hide Chain, Enabled, Apply, Racing;
    Uploads();
    Commits();
    ChainStart(Racing(Writing, NO_S3));
    s := [Racing(Writing, NO_S3)];
    Extend(s, [], PutBody(1), Racing(BodyStored, STORED));
    s := s + [Racing(BodyStored, STORED)];
    Extend(s, [] + [PutBody(1)], PutSidecar(1), Racing(Discoverable, SEALED));
    s := s + [Racing(Discoverable, SEALED)];
    Extend(s, [] + [PutBody(1)] + [PutSidecar(1)], FinishSeal(1), World(Ag(TWO, [E1, E2], [], {"s"}), WON, SEALED));
    s := s + [World(Ag(TWO, [E1, E2], [], {"s"}), WON, SEALED)];
    assert P4 == [] + [PutBody(1)] + [PutSidecar(1)] + [FinishSeal(1)];
  }

  const ACKING := Session([], [TWO], {"s"})

  lemma AckSent()
    ensures
      var ag := Ag(TWO, [E1, E2], [], {"s"});
      && Enabled(World(ag, WON, SEALED), SendAck(0, 0), CFG)
      && Apply(World(ag, WON, SEALED), SendAck(0, 0), CFG) == World(ag.(sessions := [ACKING]), WON, SEALED)
  {
    hide MergeMax;
    var ag := Ag(TWO, [E1, E2], [], {"s"});
    assert BuildAck({"s"}, TWO) == TWO && [] + [TWO] == [TWO];
    assert ag.sessions[0 := ACKING] == [ACKING];
  }

  lemma AckTaken()
    ensures
      var ag := Ag(TWO, [E1, E2], [], {"s"}).(sessions := [ACKING]);
      && Enabled(World(ag, WON, SEALED), ApplyAck(0, 0), CFG)
      && Apply(World(ag, WON, SEALED), ApplyAck(0, 0), CFG)
         == World(Agent(TWO, TWO, C.Window([], 0, 0, false), [Session([], [], {"s"})], true), WON, SEALED)
  {
    KeptNone();
    assert [TWO][1..] == [] && [ACKING][0 := Session([], [], {"s"})] == [Session([], [], {"s"})];
    assert MergeMax(map[], TWO) == TWO;
  }

  lemma Crashed(c: State) returns (d: State)
    requires c.manager.Up?
    ensures Enabled(c, ManagerCrash, CFG) && d == Apply(c, ManagerCrash, CFG)
    ensures d.log == c.log && d.manager == Down && d.shed == c.shed && d.s3 == c.s3 && d.agents.Keys == c.agents.Keys
    ensures forall a :: a in c.agents ==> d.agents[a].checkpoint == c.agents[a].checkpoint && d.agents[a].window == c.agents[a].window
  {
    d := Apply(c, ManagerCrash, CFG);
  }

  lemma Closing() returns (s: seq<State>)
    ensures Chain(s, P5) && s[0] == World(Ag(TWO, [E1, E2], [], {"s"}), WON, SEALED)
    ensures 0 in s[3].agents && s[3].agents[0].checkpoint == TWO && s[3].agents[0].window.unacked == []
    ensures s[3].log == map["s" := [R1, R2]] && s[3].manager == Down && s[3].shed == {} && s[3].s3 == SEALED
  {
    hide Chain, Enabled, Apply, Durable;
    AckSent();
    AckTaken();
    var ag := Ag(TWO, [E1, E2], [], {"s"});
    var b := World(ag.(sessions := [ACKING]), WON, SEALED);
    var c := World(Agent(TWO, TWO, C.Window([], 0, 0, false), [Session([], [], {"s"})], true), WON, SEALED);
    s := [World(ag, WON, SEALED)];
    Extend(s, [], SendAck(0, 0), b);
    s := s + [b];
    Extend(s, [] + [SendAck(0, 0)], ApplyAck(0, 0), c);
    s := s + [c];
    var d := Crashed(c);
    Extend(s, [] + [SendAck(0, 0)] + [ApplyAck(0, 0)], ManagerCrash, d);
    s := s + [d];
    assert P5 == [] + [SendAck(0, 0)] + [ApplyAck(0, 0)] + [ManagerCrash];
  }

  const STEPS := P1 + P2 + P3 + P4 + P5

  /** The seal of R1 is still writing when the seal of R2 starts, and R2's
      finishes first: its commit covers R1, which is nowhere durable. After the
      ack and a crash R1 is gone, with no step of the run shedding anything. */
  lemma OverlapLosesAcked() returns (states: seq<State>)
    ensures IsRun(states, STEPS, CFG) && !InTurn(states, STEPS, |STEPS|) && !Serial(states, STEPS)
    ensures
      var last := states[|STEPS|];
      && InLog(last.log, R1) && 0 in last.agents && R1.offset <= At(last.agents[0].checkpoint, "s")
      && !Held(last, R1) && R1 !in last.shed && last.agents[0].window.unacked == []
  {
    hide IsRun, InTurn, Serial, Initial, Enabled, Apply, Held;
    var a := Opening();
    var b := Half(R1, "A", map[], [], [], map[], {});
    var c := Half(R2, "B", ONE, [E1], [F1], ONE, {"s"});
    var d := SecondWins();
    var e := Closing();
    assert [] + [E1] == [E1] && [E1] + [E2] == [E1, E2] && [] + [F1] == [F1] && [F1] + [F2] == [F1, F2];
    Join(a, P1, b, P2);
    var ab := a[..4] + b;
    Join(ab, P1 + P2, c, P3);
    var abc := ab[..8] + c;
    Join(abc, P1 + P2 + P3, d, P4);
    var abcd := abc[..12] + d;
    Join(abcd, P1 + P2 + P3 + P4, e, P5);
    states := abcd[..15] + e;
    RunOf(states, STEPS);
    LostAtLast(e[3]);
    OutOfTurn(states, STEPS);
  }

  /** A run that loses an acked record stored some sidecar out of turn. */
  lemma OutOfTurn(states: seq<State>, steps: seq<Step>)
    requires IsRun(states, steps, CFG)
    requires var last := states[|steps|];
      && InLog(last.log, R1) && 0 in last.agents && R1.offset <= At(last.agents[0].checkpoint, "s")
      && !Held(last, R1) && R1 !in last.shed
    ensures !InTurn(states, steps, |steps|) && !Serial(states, steps)
  {
    if Serial(states, steps) { DeliveryRuns.SerialIsInTurn(states, steps, CFG, |steps|); }
    if InTurn(states, steps, |steps|) {
      DeliveryRuns.AckOnDurability(states, steps, CFG, |steps|, 0, R1);
    }
  }

  lemma RunOf(states: seq<State>, steps: seq<Step>)
    requires Chain(states, steps) && Initial(states[0])
    ensures IsRun(states, steps, CFG)
  {
  }

  lemma LostAtLast(last: State)
    requires last.log == map["s" := [R1, R2]] && last.manager == Down && last.s3 == SEALED
    ensures InLog(last.log, R1) && !Held(last, R1)
  {
    assert last.log["s"][0] == R1;
    assert R1 != R2 && R1 !in [R2];
  }

  lemma MaxOffOne()
    ensures MaxOff([R2]) == map["s" := 2]
    ensures MergeMax(map[], map["s" := 2]) == map["s" := 2]
  {
    assert [R2][..0] == [];
  }

  lemma KeptNone()
    ensures C.Kept([C.Envelope(R1, 1, true), C.Envelope(R2, 1, true)], map["s" := 2]) == []
  {
    var e1, e2 := C.Envelope(R1, 1, true), C.Envelope(R2, 1, true);
    assert [e1, e2][..1] == [e1] && [e1][..0] == [];
    assert C.IsAcked(e1, map["s" := 2]) && C.IsAcked(e2, map["s" := 2]);
    assert C.Kept([e1], map["s" := 2]) == C.Kept([], map["s" := 2]);
  }
}
