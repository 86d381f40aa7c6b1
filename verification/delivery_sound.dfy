/**
  What holds in every state of every run, however seals overlap: what is held
  came from the files and is below the dedup watermark, so that durable records
  stay durable and what Accept takes is new.
 */
module DeliverySound {
  import opened Model
  import opened Offsets
  import opened Delivery
  import opened DeliverySteps
  import S = Spooling
  import C = IngestClient

  ghost predicate AllInLog(log: Log, rs: seq<Record>) {
    forall i :: 0 <= i < |rs| ==> InLog(log, rs[i])
  }

  ghost predicate WindowInLog(log: Log, es: seq<C.Envelope>) {
    forall i :: 0 <= i < |es| ==> InLog(log, es[i].rec)
  }

  /** Everything an agent holds or has sent is in the files. */
  ghost predicate AgentInLog(log: Log, ag: Agent) {
    WindowInLog(log, ag.window.unacked) && forall k :: 0 <= k < |ag.sessions| ==> AllInLog(log, ag.sessions[k].data)
  }

  ghost predicate AgentsInLog(st: State) {
    forall a :: a in st.agents ==> AgentInLog(st.log, st.agents[a])
  }

  ghost predicate Sound(st: State) {
    LogOk(st.log) && StoreOk(st.s3) && ManagerOk(st) && HeldBelow(st) && AgentsInLog(st)
  }

  // ---- Steps of the agents ----

  lemma OneAgentSound(st: State, st': State, a: nat)
    requires Sound(st) && a in st'.agents && AgentInLog(st.log, st'.agents[a])
    requires st' == WithAgent(st, a, st'.agents[a]).(shed := st'.shed)
    ensures Sound(st')
  {
    hide AgentInLog, LogOk, StoreOk, InLog, FlightsOk, Watermarks;
    forall x ensures Held(st', x) <==> Held(st, x) {}
  }

  lemma ReadInLog(log: Log, ag: Agent, r: Record, rawLen: nat, caps: C.Caps)
    requires AgentInLog(log, ag) && InLog(log, r)
    ensures AgentInLog(log, AfterRead(ag, r, rawLen, caps))
  {
    hide InLog;
  }

  lemma FlushInLog(log: Log, ag: Agent, caps: C.Caps)
    requires AgentInLog(log, ag) && |ag.sessions| > 0
    ensures AgentInLog(log, AfterFlush(ag, caps))
  {
    hide InLog, C.Picked;
  }

  lemma AckInLog(log: Log, ag: Agent, k: nat)
    requires AgentInLog(log, ag) && k < |ag.sessions| && |ag.sessions[k].acks| > 0
    ensures AgentInLog(log, AfterAck(ag, k))
  {
    hide InLog, MergeMax, C.Kept;
    var es := ag.window.unacked;
    C.KeptIsFilter(es, ag.sessions[k].acks[0]);
    forall e | e in C.Kept(es, ag.sessions[k].acks[0]) ensures InLog(log, e.rec) {
      assert e in es;
    }
  }

  /** A session whose channel lost records, or some of whose acks, changes nothing here. */
  lemma SessionInLog(log: Log, ag: Agent, k: nat, s: Session)
    requires AgentInLog(log, ag) && k < |ag.sessions| && AllInLog(log, s.data)
    ensures AgentInLog(log, WithSession(ag, k, s))
  {
  }

  lemma AgentStepSound(st: State, step: Step, cfg: Config)
    requires Sound(st) && Enabled(st, step, cfg)
    requires step.Read? || step.Flush? || step.Connect? || step.Disconnect? || step.ApplyAck? || step.AgentCrash?
    ensures Sound(Apply(st, step, cfg))
  {
    hide LogOk, StoreOk, ManagerOk, HeldBelow, C.Enqueued, C.Shed, C.Flushed, C.FlushedBatch, C.AckApplied, MergeMax, AfterRead, AfterFlush, AfterAck;
    var ag := st.agents[step.a];
    match step {
      case Read(_, r) => ReadInLog(st.log, ag, r, cfg.rawLen(r), cfg.caps);
      case Flush(_) => FlushInLog(st.log, ag, cfg.caps);
      case ApplyAck(_, k) => AckInLog(st.log, ag, k);
      case _ =>
    }
    OneAgentSound(st, Apply(st, step, cfg), step.a);
  }

  lemma SessionStepSound(st: State, step: Step, cfg: Config)
    requires Sound(st) && Enabled(st, step, cfg)
    requires step.Cut? || step.SendAck? || step.LoseAck?
    ensures Sound(Apply(st, step, cfg))
  {
    hide LogOk, StoreOk, ManagerOk, HeldBelow, BuildAck, InLog, Watermarks;
    var st' := Apply(st, step, cfg);
    SessionInLog(st.log, st.agents[step.a], step.k, st'.agents[step.a].sessions[step.k]);
    OneAgentSound(st, st', step.a);
  }

  lemma AppendSound(st: State, r: Record, cfg: Config)
    requires Sound(st) && Enabled(st, Append(r), cfg)
    ensures Sound(Apply(st, Append(r), cfg))
  {
    hide LogOk, StoreOk, InLog, FlightsOk, Watermarks, Extends;
    var st' := Apply(st, Append(r), cfg);
    AppendExtends(st, r, cfg);
    ExtendedLog(st.log, st'.log, r);
    forall x ensures Held(st', x) <==> Held(st, x) {}
  }

  lemma AppendExtends(st: State, r: Record, cfg: Config)
    requires Enabled(st, Append(r), cfg)
    ensures Extends(st.log, Apply(st, Append(r), cfg).log, r)
  {
  }

  // ---- Steps of the manager ----

  lemma HoldsOnSound(st: State, st': State)
    requires Sound(st) && HoldsOn(st, st')
    ensures Sound(st')
  {
    hide LogOk, StoreOk, ManagerOk, Held, InLog;
  }

  lemma DeliverSound(st: State, a: nat, k: nat, cfg: Config)
    requires Sound(st) && Enabled(st, Deliver(a, k), cfg)
    ensures Sound(Apply(st, Deliver(a, k), cfg))
  {
    hide LogOk, StoreOk, InLog, FlightsOk, Watermarks, Held;
    var st' := Apply(st, Deliver(a, k), cfg);
    var s := st.agents[a].sessions[k];
    var r := s.data[0];
    DeliveredInLog(st, a, k, cfg);
    SessionInLog(st.log, st.agents[a], k, st'.agents[a].sessions[k]);
    AcceptSound(st, st', r, cfg);
  }

  lemma AcceptSound(st: State, st': State, r: Record, cfg: Config)
    requires ManagerOk(st) && HeldBelow(st) && InLog(st.log, r) && r.offset > 0
    requires st.manager.Up? && st'.log == st.log && st'.s3 == st.s3
    requires st'.manager == st.manager.(spool := S.Accepted(st.manager.spool, r, cfg.size))
    ensures ManagerOk(st') && HeldBelow(st')
  {
    hide InLog, FlightsOk, Watermarks, Durable;
    if S.IsDuplicate(st.manager.spool, r) {
      forall x ensures Held(st', x) <==> Held(st, x) {}
    } else {
      AcceptedHeld(st, st', r);
    }
  }

  /** Only what S3 holds survives, and its sidecars give its watermark back. */
  lemma CrashSound(st: State, cfg: Config)
    requires Sound(st) && st.manager.Up?
    ensures Sound(Apply(st, ManagerCrash, cfg))
  {
    hide LogOk, StoreOk, InLog, Watermarks, FlightsOk;
    var st' := Apply(st, ManagerCrash, cfg);
    MarkIsMax(st.s3);
    forall x | Held(st', x) ensures InLog(st.log, x) && x.offset <= At(Mark(st), x.source) { assert Held(st, x); }
  }

  lemma RecoverSound(st: State, cfg: Config)
    requires Sound(st) && st.manager.Down?
    ensures Sound(Apply(st, ManagerRecover, cfg))
  {
    hide LogOk, StoreOk, InLog, Watermarks;
    var st' := Apply(st, ManagerRecover, cfg);
    forall x ensures Held(st', x) <==> Held(st, x) {}
  }

  // ---- Every run ----

  lemma SoundStep(st: State, step: Step, cfg: Config)
    requires Sound(st) && Enabled(st, step, cfg)
    ensures Sound(Apply(st, step, cfg))
  {
    hide AgentsInLog, HeldBelow, LogOk, StoreOk, ManagerOk, Apply, HoldsOn;
    match step
    case Append(r) => AppendSound(st, r, cfg);
    case Read(_, _) => AgentStepSound(st, step, cfg);
    case Flush(_) => AgentStepSound(st, step, cfg);
    case Connect(_) => AgentStepSound(st, step, cfg);
    case Disconnect(_) => AgentStepSound(st, step, cfg);
    case Cut(_, _, _) => SessionStepSound(st, step, cfg);
    case Deliver(a, k) => DeliverSound(st, a, k, cfg);
    case SendAck(_, _) => SessionStepSound(st, step, cfg);
    case ApplyAck(_, _) => AgentStepSound(st, step, cfg);
    case LoseAck(_, _) => SessionStepSound(st, step, cfg);
    case AgentCrash(_) => AgentStepSound(st, step, cfg);
    case BeginSeal(batch, id) => BeginSealHolds(st, batch, id, cfg); HoldsOnSound(st, Apply(st, step, cfg));
    case PutBody(k) => PutBodyHolds(st, k, cfg); HoldsOnSound(st, Apply(st, step, cfg));
    case PutSidecar(k) => PutSidecarHolds(st, k, cfg); HoldsOnSound(st, Apply(st, step, cfg));
    case FinishSeal(k) => FinishSealHolds(st, k, cfg); HoldsOnSound(st, Apply(st, step, cfg));
    case FailSeal(k) => FailSealHolds(st, k, cfg); HoldsOnSound(st, Apply(st, step, cfg));
    case ManagerCrash => CrashSound(st, cfg);
    case ManagerRecover => RecoverSound(st, cfg);
  }

  lemma InitialSound(st: State)
    requires Initial(st)
    ensures Sound(st)
  {
  }

  /** Every reachable state is sound, however seals overlap. */
  lemma {:induction false} AlwaysSound(states: seq<State>, steps: seq<Step>, cfg: Config, i: nat)
    requires IsRun(states, steps, cfg) && i < |states|
    ensures Sound(states[i])
    decreases i
  {
    hide Sound, Apply, Initial;
    if i == 0 {
      InitialSound(states[0]);
    } else {
      AlwaysSound(states, steps, cfg, i - 1);
      SoundStep(states[i - 1], steps[i - 1], cfg);
    }
  }

  // ---- Durable for good ----

  /** What is durable stays durable. */
  lemma {:induction false} DurableForever(states: seq<State>, steps: seq<Step>, cfg: Config, i: nat, j: nat, q: Record)
    requires IsRun(states, steps, cfg) && i <= j < |states|
    requires Durable(states[i].s3, q)
    ensures Durable(states[j].s3, q)
    decreases j
  {
    hide Sound, Durable, Enabled;
    if i < j {
      DurableForever(states, steps, cfg, i, j - 1, q);
      AlwaysSound(states, steps, cfg, j - 1);
      DurableStep(states[j - 1], steps[j - 1], cfg, q);
    }
  }

  lemma DurableStep(st: State, step: Step, cfg: Config, q: Record)
    requires Sound(st) && Enabled(st, step, cfg) && Durable(st.s3, q)
    ensures Durable(Apply(st, step, cfg).s3, q)
  {
    hide AgentsInLog, HeldBelow, StoreOk, MaxOff, Durable, LogOk, AfterRead, AfterFlush, AfterAck, Severed, BuildAck, S.Accepted, S.Requeued, S.CommittedUpTo, S.Seeded, WithoutFlight, IsNext, Unused, Watermarks, MergeMax, C.Unsent, C.Shed;
    match step
    case PutBody(k) => BodyIsFresh(st, k);
      DurableWithBody(st.s3, Apply(st, step, cfg).s3, st.manager.flights[k]);
    case PutSidecar(k) =>
      assert FlightOk(st.s3, st.manager.flights[k]);
      DurableWithSidecar(st, Apply(st, step, cfg), st.manager.flights[k]);
    case _ =>
      assert Apply(st, step, cfg).s3 == st.s3;
  }

  // ---- Watermark dedup ----

  lemma DeliveredInLog(st: State, a: nat, k: nat, cfg: Config)
    requires Sound(st) && Enabled(st, Deliver(a, k), cfg)
    ensures var r := st.agents[a].sessions[k].data[0]; InLog(st.log, r) && r.offset > 0
  {
    hide HeldBelow, ManagerOk, StoreOk, LogOk, InLog;
    WithinEnd(st.log, st.agents[a].sessions[k].data[0]);
  }

  /** What Accept takes was nowhere before. */
  lemma AcceptedIsNew(states: seq<State>, steps: seq<Step>, cfg: Config, i: nat)
    requires IsRun(states, steps, cfg) && i < |steps| && steps[i].Deliver?
    ensures
      var st := states[i];
      var r := st.agents[steps[i].a].sessions[steps[i].k].data[0];
      !S.IsDuplicate(st.manager.spool, r) ==> !Held(st, r)
  {
    hide LogOk, StoreOk, ManagerOk, AgentsInLog, Held, InLog, Apply, Watermarks;
    AlwaysSound(states, steps, cfg, i);
    DeliveredInLog(states[i], steps[i].a, steps[i].k, cfg);
  }
}
