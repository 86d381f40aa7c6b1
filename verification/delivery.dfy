/**
  The delivery protocol as a state machine: agents read log files and send
  records over sessions; the manager buffers, seals to S3 and acks; agents,
  the manager, sessions and acks can fail at any point.
 */
module Delivery {
  import opened Model
  import opened Offsets
  import S = Spooling
  import C = IngestClient

  type Log = map<string, seq<Record>>
  type Marks = map<string, int>

  /** One ingest stream: records sent and not yet delivered, acks sent and not
      yet applied, and the sources the server has seen on it. */
  datatype Session = Session(data: seq<Record>, acks: seq<map<string, int>>, seen: set<string>)

  /** An agent. `checkpoint` is on disk; the rest dies with the process. While
      `live`, the last session is the one the client sends on. */
  datatype Agent = Agent(
    checkpoint: map<string, int>,
    read: map<string, int>,
    window: C.Window,
    sessions: seq<Session>,
    live: bool)

  datatype Phase = Writing | BodyStored | Discoverable

  /** A seal in flight. */
  datatype Flight = Flight(batch: seq<Record>, id: string, phase: Phase)

  datatype Manager = Down | Up(spool: S.SpoolState, flights: seq<Flight>)

  datatype Sidecar = Sidecar(id: string, offsets: map<string, int>)

  /** S3: segment bodies by id, and the sidecars that make them discoverable. */
  datatype ObjectStore = ObjectStore(bodies: map<string, seq<Record>>, sidecars: seq<Sidecar>)

  datatype Config = Config(caps: C.Caps, rawLen: Record -> nat, size: Record -> nat)

  /** `log` is what the files hold; `shed` remembers the records dropped at the
      hard cap, which the client only counts. */
  datatype State = State(
    log: map<string, seq<Record>>,
    agents: map<nat, Agent>,
    manager: Manager,
    s3: ObjectStore,
    shed: set<Record>)

  datatype Step =
    | Append(r: Record)
    | Read(a: nat, r: Record)
    | Flush(a: nat)
    | Connect(a: nat)
    | Disconnect(a: nat)
    | Cut(a: nat, k: nat, keep: nat)
    | Deliver(a: nat, k: nat)
    | SendAck(a: nat, k: nat)
    | ApplyAck(a: nat, k: nat)
    | LoseAck(a: nat, k: nat)
    | AgentCrash(a: nat)
    | BeginSeal(batch: seq<Record>, id: string)
    | PutBody(k: nat)
    | PutSidecar(k: nat)
    | FinishSeal(k: nat)
    | FailSeal(k: nat)
    | ManagerCrash
    | ManagerRecover

  // ---- Vocabulary ----

  ghost predicate InLog(log: map<string, seq<Record>>, r: Record) {
    r.source in log && r in log[r.source]
  }

  /** The last offset of a file, zero when it is empty. */
  function End(log: map<string, seq<Record>>, source: string): int {
    if source in log && log[source] != [] then log[source][|log[source]| - 1].offset else 0
  }

  /** r is the first record of its file past `offset`. */
  ghost predicate IsNext(log: map<string, seq<Record>>, offset: int, r: Record) {
    && InLog(log, r)
    && r.offset > offset
    && forall q :: InLog(log, q) && q.source == r.source && q.offset < r.offset ==> q.offset <= offset
  }

  /** The watermarks a manager recovering from S3 starts with. */
  function Watermarks(sidecars: seq<Sidecar>): map<string, int> {
    if sidecars == [] then map[]
    else MergeMax(Watermarks(sidecars[..|sidecars| - 1]), sidecars[|sidecars| - 1].offsets)
  }

  function Mark(st: State): map<string, int> {
    Watermarks(st.s3.sidecars)
  }

  /** The dedup watermark in force. */
  function Received(st: State): map<string, int> {
    if st.manager.Up? then st.manager.spool.received else Mark(st)
  }

  /** r is in a segment whose sidecar is in S3. */
  ghost predicate Durable(s3: ObjectStore, r: Record) {
    exists i :: 0 <= i < |s3.sidecars| && s3.sidecars[i].id in s3.bodies && r in s3.bodies[s3.sidecars[i].id]
  }

  ghost predicate InFlight(m: Manager, r: Record) {
    m.Up? && exists k :: 0 <= k < |m.flights| && r in m.flights[k].batch
  }

  ghost predicate Buffered(m: Manager, r: Record) {
    m.Up? && r in m.spool.buf
  }

  predicate Unused(st: State, id: string) {
    && id !in st.s3.bodies
    && (forall i :: 0 <= i < |st.s3.sidecars| ==> st.s3.sidecars[i].id != id)
    && (st.manager.Up? ==> forall k :: 0 <= k < |st.manager.flights| ==> st.manager.flights[k].id != id)
  }

  function WithAgent(st: State, a: nat, ag: Agent): State {
    st.(agents := st.agents[a := ag])
  }

  function WithSession(ag: Agent, k: nat, s: Session): Agent
    requires k < |ag.sessions|
  {
    ag.(sessions := ag.sessions[k := s])
  }

  function WithoutFlight(fs: seq<Flight>, k: nat): seq<Flight>
    requires k < |fs|
  {
    fs[..k] + fs[k + 1..]
  }

  /** The tail hands r to the client; a shed record's offset is checkpointed. */
  function AfterRead(ag: Agent, r: Record, rawLen: nat, caps: C.Caps): Agent {
    var dropped := C.Shed(ag.window, rawLen, caps);
    ag.(read := ag.read[r.source := r.offset],
        window := C.Enqueued(ag.window, r, rawLen, caps),
        checkpoint := if dropped.Some? then Raise(ag.checkpoint, dropped.value.source, dropped.value.offset) else ag.checkpoint)
  }

  /** One batch goes from the window to the live session. */
  function AfterFlush(ag: Agent, caps: C.Caps): Agent
    requires |ag.sessions| > 0
  {
    var k := |ag.sessions| - 1;
    var s := ag.sessions[k];
    WithSession(ag, k, s.(data := s.data + C.FlushedBatch(ag.window, caps))).(window := C.Flushed(ag.window, caps))
  }

  /** The first ack of a session trims the window and moves the checkpoint. */
  function AfterAck(ag: Agent, k: nat): Agent
    requires k < |ag.sessions| && |ag.sessions[k].acks| > 0
  {
    var s := ag.sessions[k];
    WithSession(ag, k, s.(acks := s.acks[1..]))
    .(window := C.AckApplied(ag.window, s.acks[0]), checkpoint := MergeMax(ag.checkpoint, s.acks[0]))
  }

  /** The manager is gone: what was on its way to it is lost, but acks it sent
      still arrive. */
  function Severed(ag: Agent): Agent {
    ag.(sessions := seq(|ag.sessions|, k requires 0 <= k < |ag.sessions| => ag.sessions[k].(data := [], seen := {})), live := false)
  }

  // ---- Steps ----

  ghost predicate Enabled(st: State, step: Step, cfg: Config) {
    match step
    case Append(r) => r.offset > 0 && r.offset > End(st.log, r.source)
    case Read(a, r) =>
      && a in st.agents
      && IsNext(st.log, At(st.agents[a].read, r.source), r)
      && C.EnqueueOutcome(st.agents[a].window, cfg.rawLen(r), cfg.caps).Queued?
    case Flush(a) => a in st.agents && st.agents[a].live && |st.agents[a].sessions| > 0
    case Connect(a) => a in st.agents && st.manager.Up?
    case Disconnect(a) => a in st.agents
    case Cut(a, k, keep) =>
      && a in st.agents
      && k < |st.agents[a].sessions|
      && (st.agents[a].live ==> k + 1 < |st.agents[a].sessions|)
      && keep <= |st.agents[a].sessions[k].data|
    case Deliver(a, k) =>
      a in st.agents && st.manager.Up? && k < |st.agents[a].sessions| && |st.agents[a].sessions[k].data| > 0
    case SendAck(a, k) => a in st.agents && st.manager.Up? && k < |st.agents[a].sessions|
    case ApplyAck(a, k) => a in st.agents && k < |st.agents[a].sessions| && |st.agents[a].sessions[k].acks| > 0
    case LoseAck(a, k) => a in st.agents && k < |st.agents[a].sessions| && |st.agents[a].sessions[k].acks| > 0
    case AgentCrash(a) => a in st.agents
    case BeginSeal(batch, id) =>
      && st.manager.Up?
      && |st.manager.spool.buf| > 0
      && multiset(batch) == multiset(st.manager.spool.buf)
      && Unused(st, id)
    case PutBody(k) => st.manager.Up? && k < |st.manager.flights| && st.manager.flights[k].phase.Writing?
    case PutSidecar(k) => st.manager.Up? && k < |st.manager.flights| && st.manager.flights[k].phase.BodyStored?
    case FinishSeal(k) => st.manager.Up? && k < |st.manager.flights| && st.manager.flights[k].phase.Discoverable?
    case FailSeal(k) => st.manager.Up? && k < |st.manager.flights|
    case ManagerCrash => st.manager.Up?
    case ManagerRecover => st.manager.Down?
  }

  ghost function Apply(st: State, step: Step, cfg: Config): State
    requires Enabled(st, step, cfg)
  {
    match step
    case Append(r) =>
      st.(log := st.log[r.source := (if r.source in st.log then st.log[r.source] else []) + [r]])
    case Read(a, r) =>
      var dropped := C.Shed(st.agents[a].window, cfg.rawLen(r), cfg.caps);
      WithAgent(st, a, AfterRead(st.agents[a], r, cfg.rawLen(r), cfg.caps))
      .(shed := if dropped.Some? then st.shed + {dropped.value} else st.shed)
    case Flush(a) => WithAgent(st, a, AfterFlush(st.agents[a], cfg.caps))
    case Connect(a) =>
      var ag := st.agents[a];
      WithAgent(st, a, ag.(sessions := ag.sessions + [Session([], [], {})], live := true,
                           window := ag.window.(unacked := C.Unsent(ag.window.unacked))))
    case Disconnect(a) => WithAgent(st, a, st.agents[a].(live := false))
    case Cut(a, k, keep) =>
      var s := st.agents[a].sessions[k];
      WithAgent(st, a, WithSession(st.agents[a], k, s.(data := s.data[..keep])))
    case Deliver(a, k) =>
      var s := st.agents[a].sessions[k];
      WithAgent(st, a, WithSession(st.agents[a], k, s.(data := s.data[1..], seen := s.seen + {s.data[0].source})))
      .(manager := st.manager.(spool := S.Accepted(st.manager.spool, s.data[0], cfg.size)))
    case SendAck(a, k) =>
      var s := st.agents[a].sessions[k];
      WithAgent(st, a, WithSession(st.agents[a], k, s.(acks := s.acks + [BuildAck(s.seen, st.manager.spool.committed)])))
    case ApplyAck(a, k) => WithAgent(st, a, AfterAck(st.agents[a], k))
    case LoseAck(a, k) =>
      var s := st.agents[a].sessions[k];
      WithAgent(st, a, WithSession(st.agents[a], k, s.(acks := s.acks[1..])))
    case AgentCrash(a) =>
      var ag := st.agents[a];
      WithAgent(st, a, Agent(ag.checkpoint, ag.checkpoint, C.EMPTY,
                             seq(|ag.sessions|, k requires 0 <= k < |ag.sessions| => ag.sessions[k].(acks := [])), false))
    case BeginSeal(batch, id) =>
      st.(manager := Up(S.Taken(st.manager.spool), st.manager.flights + [Flight(batch, id, Writing)]))
    case PutBody(k) =>
      var f := st.manager.flights[k];
      st.(manager := st.manager.(flights := st.manager.flights[k := f.(phase := BodyStored)]),
          s3 := st.s3.(bodies := st.s3.bodies[f.id := f.batch]))
    case PutSidecar(k) =>
      var f := st.manager.flights[k];
      st.(manager := st.manager.(flights := st.manager.flights[k := f.(phase := Discoverable)]),
          s3 := st.s3.(sidecars := st.s3.sidecars + [Sidecar(f.id, MaxOff(f.batch))]))
    case FinishSeal(k) =>
      st.(manager := Up(S.CommittedUpTo(st.manager.spool, st.manager.flights[k].batch), WithoutFlight(st.manager.flights, k)))
    case FailSeal(k) =>
      st.(manager := Up(S.Requeued(st.manager.spool, st.manager.flights[k].batch, cfg.size),
                        WithoutFlight(st.manager.flights, k)))
    case ManagerCrash =>
      st.(manager := Down, agents := map a | a in st.agents :: Severed(st.agents[a]))
    case ManagerRecover =>
      st.(manager := Up(S.Seeded(Mark(st)), []))
  }

  ghost predicate Initial(st: State) {
    && st.log == map[]
    && (forall a :: a in st.agents ==> st.agents[a] == Agent(map[], map[], C.EMPTY, [], false))
    && st.manager == Down
    && st.s3 == ObjectStore(map[], [])
    && st.shed == {}
  }

  /** states[i + 1] results from steps[i] in states[i]. */
  ghost predicate IsRun(states: seq<State>, steps: seq<Step>, cfg: Config) {
    && |states| == |steps| + 1
    && Initial(states[0])
    && (forall i :: 0 <= i < |steps| ==> Enabled(states[i], steps[i], cfg) && states[i + 1] == Apply(states[i], steps[i], cfg))
  }

  /** Whatever comes before the records of a batch in their files is durable, in
      the batch, or was shed. */
  ghost predicate Ready(st: State, batch: seq<Record>) {
    forall q, r :: InLog(st.log, q) && r in batch && q.source == r.source && q.offset < r.offset ==>
      Durable(st.s3, q) || q in batch || q in st.shed
  }

  ghost predicate StoresReady(st: State, step: Step) {
    step.PutSidecar? && st.manager.Up? && step.k < |st.manager.flights| ==> Ready(st, st.manager.flights[step.k].batch)
  }

  /** In the first n steps sidecars are stored of ready batches only. */
  ghost predicate InTurn(states: seq<State>, steps: seq<Step>, n: nat)
    requires |states| == |steps| + 1
  {
    forall i :: 0 <= i < n && i < |steps| ==> StoresReady(states[i], steps[i])
  }

  /** Every seal starts when no other is in flight. */
  ghost predicate Serial(states: seq<State>, steps: seq<Step>)
    requires |states| == |steps| + 1
  {
    forall i :: 0 <= i < |steps| && steps[i].BeginSeal? && states[i].manager.Up? ==> states[i].manager.flights == []
  }

  // ---- The inductive invariant ----

  ghost predicate LogOk(log: map<string, seq<Record>>) {
    forall s :: s in log ==>
      && (forall i :: 0 <= i < |log[s]| ==> log[s][i].source == s && log[s][i].offset > 0)
      && (forall i, j :: 0 <= i < j < |log[s]| ==> log[s][i].offset < log[s][j].offset)
  }

  ghost predicate Bounded(log: map<string, seq<Record>>, m: map<string, int>) {
    forall s :: s in m ==> m[s] <= End(log, s)
  }

  ghost predicate Below(m: map<string, int>, mark: map<string, int>) {
    forall s :: s in m ==> m[s] <= At(mark, s)
  }

  /** Everything of r's file that comes before r is at or below the watermark,
      was shed, or is among `before`. */
  ghost predicate Preceded(log: map<string, seq<Record>>, mark: map<string, int>, shed: set<Record>, before: seq<Record>, r: Record) {
    forall q :: InLog(log, q) && q.source == r.source && q.offset < r.offset ==>
      q.offset <= At(mark, q.source) || q in shed || q in before
  }

  /** The heart of the protocol: a sequence of log records in which whatever
      comes before a record in its file precedes it or need not be sent. */
  ghost predicate NoGap(log: map<string, seq<Record>>, mark: map<string, int>, shed: set<Record>, rs: seq<Record>) {
    forall i :: 0 <= i < |rs| ==> InLog(log, rs[i]) && Preceded(log, mark, shed, rs[..i], rs[i])
  }

  /** Every log record up to `upto` is at or below the watermark, was shed, or is among rs. */
  ghost predicate Covered(log: map<string, seq<Record>>, mark: map<string, int>, shed: set<Record>, upto: map<string, int>, rs: seq<Record>) {
    forall q :: InLog(log, q) && q.offset <= At(upto, q.source) ==>
      q.offset <= At(mark, q.source) || q in shed || q in rs
  }

  /** What the live session has sent is still in its channel or was received. */
  ghost predicate SentIsKnown(received: map<string, int>, es: seq<C.Envelope>, data: seq<Record>) {
    forall j :: 0 <= j < |es| && es[j].sent ==> es[j].rec.offset <= At(received, es[j].rec.source) || es[j].rec in data
  }

  ghost predicate SessionOk(log: map<string, seq<Record>>, mark: map<string, int>, received: map<string, int>, shed: set<Record>, s: Session) {
    && NoGap(log, received, shed, s.data)
    && forall j :: 0 <= j < |s.acks| ==> Below(s.acks[j], mark)
  }

  ghost predicate SessionsOk(log: map<string, seq<Record>>, mark: map<string, int>, received: map<string, int>, shed: set<Record>, ss: seq<Session>) {
    forall k :: 0 <= k < |ss| ==> SessionOk(log, mark, received, shed, ss[k])
  }

  ghost predicate AgentOk(log: map<string, seq<Record>>, mark: map<string, int>, received: map<string, int>, shed: set<Record>, ag: Agent) {
    && C.WindowOk(ag.window)
    && NoGap(log, mark, shed, C.Records(ag.window.unacked))
    && Covered(log, mark, shed, ag.read, C.Records(ag.window.unacked))
    && Covered(log, mark, shed, ag.checkpoint, [])
    && Bounded(log, ag.read)
    && Bounded(log, ag.checkpoint)
    && (ag.live ==> |ag.sessions| > 0 && SentIsKnown(received, ag.window.unacked, ag.sessions[|ag.sessions| - 1].data))
    && SessionsOk(log, mark, received, shed, ag.sessions)
  }

  ghost predicate StoreOk(s3: ObjectStore) {
    forall i :: 0 <= i < |s3.sidecars| ==>
      s3.sidecars[i].id in s3.bodies && s3.sidecars[i].offsets == MaxOff(s3.bodies[s3.sidecars[i].id])
  }

  ghost predicate HasSidecar(s3: ObjectStore, id: string) {
    exists i :: 0 <= i < |s3.sidecars| && s3.sidecars[i].id == id
  }

  ghost predicate FlightOk(s3: ObjectStore, f: Flight) {
    && (f.phase.Writing? ==> f.id !in s3.bodies)
    && (!f.phase.Writing? ==> f.id in s3.bodies && s3.bodies[f.id] == f.batch)
    && (f.phase.Discoverable? <==> HasSidecar(s3, f.id))
    && f.batch != []
  }

  ghost predicate FlightsOk(s3: ObjectStore, fs: seq<Flight>) {
    && (forall k :: 0 <= k < |fs| ==> FlightOk(s3, fs[k]))
    && (forall j, k :: 0 <= j < k < |fs| ==> fs[j].id != fs[k].id)
  }

  ghost predicate ManagerOk(st: State) {
    st.manager.Up? ==> FlightsOk(st.s3, st.manager.flights) && Below(st.manager.spool.committed, Mark(st))
  }

  ghost predicate Held(st: State, r: Record) {
    Durable(st.s3, r) || InFlight(st.manager, r) || Buffered(st.manager, r)
  }

  /** What is held is in the files, at or below the dedup watermark. */
  ghost predicate HeldBelow(st: State) {
    forall r :: Held(st, r) ==> InLog(st.log, r) && r.offset <= At(Received(st), r.source)
  }

  /** Everything up to the mark is in S3, or was shed. */
  ghost predicate MarkCovered(st: State) {
    forall q :: InLog(st.log, q) && q.offset <= At(Mark(st), q.source) ==> Durable(st.s3, q) || q in st.shed
  }

  /** The manager and S3 hold exactly the records up to the dedup watermark,
      and S3 alone exactly those up to the mark of its sidecars. */
  ghost predicate ContentOk(st: State) {
    && Bounded(st.log, Received(st))
    && HeldBelow(st)
    && (forall q :: InLog(st.log, q) && q.offset <= At(Received(st), q.source) ==> Held(st, q) || q in st.shed)
    && MarkCovered(st)
  }

  /** Nothing is on its way from the agent. */
  predicate Silent(ag: Agent) {
    !ag.live && forall k :: 0 <= k < |ag.sessions| ==> ag.sessions[k].data == []
  }

  ghost predicate AgentsOk(st: State) {
    forall a :: a in st.agents ==>
      && AgentOk(st.log, Mark(st), Received(st), st.shed, st.agents[a])
      && (st.manager.Down? ==> Silent(st.agents[a]))
  }

  ghost predicate Inv(st: State) {
    LogOk(st.log) && StoreOk(st.s3) && ManagerOk(st) && ContentOk(st) && AgentsOk(st)
  }

  // ---- Facts about logs and marks ----

  lemma SameOffsetSameRecord(log: map<string, seq<Record>>, q: Record, r: Record)
    requires LogOk(log) && InLog(log, q) && InLog(log, r) && q.source == r.source && q.offset == r.offset
    ensures q == r
  {
    var s := q.source;
    var i :| 0 <= i < |log[s]| && log[s][i] == q;
    var j :| 0 <= j < |log[s]| && log[s][j] == r;
  }

  lemma WithinEnd(log: map<string, seq<Record>>, q: Record)
    requires LogOk(log) && InLog(log, q)
    ensures 0 < q.offset <= End(log, q.source)
  {
    var i :| 0 <= i < |log[q.source]| && log[q.source][i] == q;
  }

  /** What an object store holds after one more sidecar. */
  lemma DurableWithLast(s3: ObjectStore, r: Record)
    requires StoreOk(s3) && s3.sidecars != []
    ensures var front := s3.(sidecars := s3.sidecars[..|s3.sidecars| - 1]);
      StoreOk(front) && (Durable(s3, r) <==> Durable(front, r) || r in s3.bodies[s3.sidecars[|s3.sidecars| - 1].id])
  {
    var n := |s3.sidecars|;
    var front := s3.(sidecars := s3.sidecars[..n - 1]);
    if Durable(s3, r) {
      var i :| 0 <= i < n && s3.sidecars[i].id in s3.bodies && r in s3.bodies[s3.sidecars[i].id];
      if i < n - 1 { assert front.sidecars[i] == s3.sidecars[i]; }
    }
    if Durable(front, r) {
      var i :| 0 <= i < n - 1 && front.sidecars[i].id in front.bodies && r in front.bodies[front.sidecars[i].id];
      assert s3.sidecars[i] == front.sidecars[i];
    }
  }

  /** Each mark is the highest durable offset of its source. */
  lemma {:induction false} MarkIsMax(s3: ObjectStore)
    requires StoreOk(s3)
    ensures forall r :: Durable(s3, r) ==> r.offset <= At(Watermarks(s3.sidecars), r.source)
    ensures forall s :: s in Watermarks(s3.sidecars) ==>
      Watermarks(s3.sidecars)[s] > 0
      && exists r :: Durable(s3, r) && r.source == s && r.offset == Watermarks(s3.sidecars)[s]
    decreases |s3.sidecars|
  {
    hide MergeMax, MaxOff;
    if s3.sidecars != [] {
      var front := s3.(sidecars := s3.sidecars[..|s3.sidecars| - 1]);
      var last := s3.sidecars[|s3.sidecars| - 1];
      forall r ensures StoreOk(front) && (Durable(s3, r) <==> Durable(front, r) || r in s3.bodies[last.id]) {
        DurableWithLast(s3, r);
      }
      MarkStep(s3, front, last);
    }
  }

  lemma MarkStep(s3: ObjectStore, front: ObjectStore, last: Sidecar)
    requires s3.sidecars != [] && front == s3.(sidecars := s3.sidecars[..|s3.sidecars| - 1])
    requires StoreOk(front) && last == s3.sidecars[|s3.sidecars| - 1]
    requires last.id in s3.bodies && last.offsets == MaxOff(s3.bodies[last.id])
    requires forall r :: Durable(s3, r) <==> Durable(front, r) || r in s3.bodies[last.id]
    ensures forall r :: Durable(s3, r) ==> r.offset <= At(Watermarks(s3.sidecars), r.source)
    ensures forall s :: s in Watermarks(s3.sidecars) ==>
      Watermarks(s3.sidecars)[s] > 0
      && exists r :: Durable(s3, r) && r.source == s && r.offset == Watermarks(s3.sidecars)[s]
    decreases |s3.sidecars|, 0
  {
    hide MergeMax, MaxOff, Durable;
    MarkIsMax(front);
    MaxOffIsMax(s3.bodies[last.id]);
    var mark := Watermarks(s3.sidecars);
    forall r | Durable(s3, r) ensures r.offset <= At(mark, r.source) {
      MergeMaxAt(Watermarks(front.sidecars), last.offsets, r.source);
    }
    forall s | s in mark ensures mark[s] > 0 && exists r :: Durable(s3, r) && r.source == s && r.offset == mark[s] {
      MergeMaxIs(Watermarks(front.sidecars), last.offsets, s);
    }
  }

  lemma MarkBelowReceived(st: State)
    requires LogOk(st.log) && StoreOk(st.s3) && ContentOk(st)
    ensures Below(Mark(st), Received(st)) && Bounded(st.log, Mark(st))
  {
    MarkIsMax(st.s3);
    forall s | s in Mark(st) ensures Mark(st)[s] <= At(Received(st), s) && Mark(st)[s] <= End(st.log, s) {
      var r :| Durable(st.s3, r) && r.source == s && r.offset == Mark(st)[s];
      assert Held(st, r);
      WithinEnd(st.log, r);
    }
  }

  // ---- Agents under changes elsewhere ----

  ghost predicate Grows(m: map<string, int>, m': map<string, int>) {
    forall s :: At(m, s) <= At(m', s)
  }

  lemma NoGapWhenMarksGrow(log: map<string, seq<Record>>, mark: map<string, int>, shed: set<Record>,
                           mark': map<string, int>, shed': set<Record>, rs: seq<Record>)
    requires NoGap(log, mark, shed, rs) && Grows(mark, mark') && shed <= shed'
    ensures NoGap(log, mark', shed', rs)
  {
    forall i | 0 <= i < |rs| ensures Preceded(log, mark', shed', rs[..i], rs[i]) {
      assert Preceded(log, mark, shed, rs[..i], rs[i]);
    }
  }

  lemma SessionsOkWhenMarksGrow(log: map<string, seq<Record>>, mark: map<string, int>, received: map<string, int>, shed: set<Record>,
                                mark': map<string, int>, received': map<string, int>, shed': set<Record>, ss: seq<Session>)
    requires SessionsOk(log, mark, received, shed, ss)
    requires Grows(mark, mark') && Grows(received, received') && shed <= shed'
    ensures SessionsOk(log, mark', received', shed', ss)
  {
    forall k | 0 <= k < |ss| ensures SessionOk(log, mark', received', shed', ss[k]) {
      assert SessionOk(log, mark, received, shed, ss[k]);
      NoGapWhenMarksGrow(log, received, shed, received', shed', ss[k].data);
    }
  }

  /** Watermarks moving forward never break an agent. */
  lemma AgentOkWhenMarksGrow(log: map<string, seq<Record>>, mark: map<string, int>, received: map<string, int>, shed: set<Record>,
                             mark': map<string, int>, received': map<string, int>, shed': set<Record>, ag: Agent)
    requires AgentOk(log, mark, received, shed, ag)
    requires Grows(mark, mark') && Grows(received, received') && shed <= shed'
    ensures AgentOk(log, mark', received', shed', ag)
  {
    SessionsOkWhenMarksGrow(log, mark, received, shed, mark', received', shed', ag.sessions);
    NoGapWhenMarksGrow(log, mark, shed, mark', shed', C.Records(ag.window.unacked));
  }

  /** log' is log with one more line in one file, past its end. */
  ghost predicate Extends(log: map<string, seq<Record>>, log': map<string, seq<Record>>, r: Record) {
    && r.offset > 0 && r.offset > End(log, r.source)
    && log' == log[r.source := (if r.source in log then log[r.source] else []) + [r]]
  }

  /** What r's file held before. */
  function Lines(log: map<string, seq<Record>>, source: string): seq<Record> {
    if source in log then log[source] else []
  }

  lemma ExtendedLog(log: map<string, seq<Record>>, log': map<string, seq<Record>>, r: Record)
    requires LogOk(log) && Extends(log, log', r)
    ensures LogOk(log')
    ensures forall q :: InLog(log', q) <==> InLog(log, q) || q == r
    ensures forall s :: End(log, s) <= End(log', s)
  {
    var was := Lines(log, r.source);
    assert log'[r.source] == was + [r];
    forall q ensures InLog(log', q) <==> InLog(log, q) || q == r {
      ExtendedMember(log, log', r, q);
    }
    FileExtended(was, r);
  }

  lemma ExtendedMember(log: map<string, seq<Record>>, log': map<string, seq<Record>>, r: Record, q: Record)
    requires LogOk(log) && Extends(log, log', r)
    ensures InLog(log', q) <==> InLog(log, q) || q == r
  {
    var was := Lines(log, r.source);
    assert log'[r.source] == was + [r];
    assert q in was + [r] <==> q in was || q == r;
  }

  lemma FileExtended(was: seq<Record>, r: Record)
    requires forall i, j :: 0 <= i < j < |was| ==> was[i].offset < was[j].offset
    requires was != [] ==> was[|was| - 1].offset < r.offset
    ensures forall i, j :: 0 <= i < j < |was + [r]| ==> (was + [r])[i].offset < (was + [r])[j].offset
  {
  }

  /** A new line goes past everything any watermark or sequence speaks of. */
  lemma NoGapWhenLogGrows(log: map<string, seq<Record>>, log': map<string, seq<Record>>, r: Record,
                          mark: map<string, int>, shed: set<Record>, rs: seq<Record>)
    requires LogOk(log) && Extends(log, log', r) && NoGap(log, mark, shed, rs)
    ensures NoGap(log', mark, shed, rs)
  {
    ExtendedLog(log, log', r);
    forall i | 0 <= i < |rs| ensures InLog(log', rs[i]) && Preceded(log', mark, shed, rs[..i], rs[i]) {
      assert Preceded(log, mark, shed, rs[..i], rs[i]);
      WithinEnd(log, rs[i]);
    }
  }

  lemma CoveredWhenLogGrows(log: map<string, seq<Record>>, log': map<string, seq<Record>>, r: Record,
                            mark: map<string, int>, shed: set<Record>, upto: map<string, int>, rs: seq<Record>)
    requires LogOk(log) && Extends(log, log', r) && Covered(log, mark, shed, upto, rs) && Bounded(log, upto)
    ensures Covered(log', mark, shed, upto, rs) && Bounded(log', upto)
  {
    ExtendedLog(log, log', r);
  }

  lemma AgentOkWhenLogGrows(log: map<string, seq<Record>>, log': map<string, seq<Record>>, r: Record,
                            mark: map<string, int>, received: map<string, int>, shed: set<Record>, ag: Agent)
    requires LogOk(log) && Extends(log, log', r) && AgentOk(log, mark, received, shed, ag)
    ensures AgentOk(log', mark, received, shed, ag)
  {
    var rs := C.Records(ag.window.unacked);
    NoGapWhenLogGrows(log, log', r, mark, shed, rs);
    CoveredWhenLogGrows(log, log', r, mark, shed, ag.read, rs);
    CoveredWhenLogGrows(log, log', r, mark, shed, ag.checkpoint, []);
    forall k | 0 <= k < |ag.sessions| ensures SessionOk(log', mark, received, shed, ag.sessions[k]) {
      assert SessionOk(log, mark, received, shed, ag.sessions[k]);
      NoGapWhenLogGrows(log, log', r, received, shed, ag.sessions[k].data);
    }
  }
}
