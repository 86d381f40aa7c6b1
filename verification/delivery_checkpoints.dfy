/**
  A checkpoint is always zero or the end of a line that was emitted, so an agent
  never restarts inside a line or a run of partial lines.
 */
module DeliveryCheckpoints {
  import opened Model
  import opened Offsets
  import opened Delivery
  import opened DeliveryAgents
  import opened DeliverySound
  import C = IngestClient
  import T = Tailer

  /** Every mark is the offset of a record of its file. */
  ghost predicate Real(log: Log, m: Marks) {
    forall s :: s in m ==> exists r :: InLog(log, r) && r.source == s && r.offset == m[s]
  }

  ghost predicate AgentReal(log: Log, ag: Agent) {
    && Real(log, ag.checkpoint)
    && forall k, j :: 0 <= k < |ag.sessions| && 0 <= j < |ag.sessions[k].acks| ==> Real(log, ag.sessions[k].acks[j])
  }

  ghost predicate AllReal(st: State) {
    && (st.manager.Up? ==> Real(st.log, st.manager.spool.committed))
    && forall a :: a in st.agents ==> AgentReal(st.log, st.agents[a])
  }

  lemma RealMerge(log: Log, a: Marks, b: Marks)
    requires Real(log, a) && Real(log, b)
    ensures Real(log, MergeMax(a, b))
  {
    var m := MergeMax(a, b);
    forall s | s in m ensures exists r :: InLog(log, r) && r.source == s && r.offset == m[s] {
      if s in b && b[s] > At(a, s) {
        assert m[s] == b[s];
      } else {
        assert s in a && m[s] == a[s];
      }
    }
  }

  lemma RealMaxOff(log: Log, batch: seq<Record>)
    requires forall r :: r in batch ==> InLog(log, r)
    ensures Real(log, MaxOff(batch))
  {
    MaxOffIsMax(batch);
  }

  lemma RealMark(st: State)
    requires Sound(st)
    ensures Real(st.log, Mark(st))
  {
    MarkIsMax(st.s3);
    forall s | s in Mark(st) ensures exists r :: InLog(st.log, r) && r.source == s && r.offset == Mark(st)[s] {
      var r :| Durable(st.s3, r) && r.source == s && r.offset == Mark(st)[s];
      assert Held(st, r);
    }
  }

  lemma RealGrows(log: Log, log': Log, r: Record, m: Marks)
    requires LogOk(log) && Extends(log, log', r) && Real(log, m)
    ensures Real(log', m)
  {
    ExtendedLog(log, log', r);
    forall s | s in m ensures exists q :: InLog(log', q) && q.source == s && q.offset == m[s] {
      var q :| InLog(log, q) && q.source == s && q.offset == m[s];
      assert InLog(log', q);
    }
  }

  lemma ReadReal(log: Log, ag: Agent, r: Record, rawLen: nat, caps: C.Caps)
    requires AgentReal(log, ag)
    requires forall i :: 0 <= i < |ag.window.unacked| ==> InLog(log, ag.window.unacked[i].rec)
    ensures AgentReal(log, AfterRead(ag, r, rawLen, caps))
  {
    var ag' := AfterRead(ag, r, rawLen, caps);
    assert ag'.sessions == ag.sessions;
    var cp := ag'.checkpoint;
    forall s | s in cp ensures exists q :: InLog(log, q) && q.source == s && q.offset == cp[s] {
      if s in ag.checkpoint && cp[s] == ag.checkpoint[s] {
      } else {
        assert InLog(log, ag.window.unacked[0].rec);
      }
    }
  }

  lemma LoseAckReal(st: State, a: nat, k: nat, cfg: Config)
    requires AllReal(st) && Enabled(st, LoseAck(a, k), cfg)
    ensures AllReal(Apply(st, LoseAck(a, k), cfg))
  {
    var s, s' := st.agents[a].sessions[k], Apply(st, LoseAck(a, k), cfg).agents[a].sessions[k];
    forall j | 0 <= j < |s'.acks| ensures Real(st.log, s'.acks[j]) {
      assert s'.acks[j] == s.acks[j + 1];
    }
  }

  /** ag' carries no ack and no checkpoint that ag does not. */
  ghost predicate NoNewMarks(ag: Agent, ag': Agent) {
    && ag'.checkpoint == ag.checkpoint
    && forall k :: 0 <= k < |ag'.sessions| ==>
         ag'.sessions[k].acks == [] || (k < |ag.sessions| && ag'.sessions[k].acks == ag.sessions[k].acks)
  }

  lemma OldMarksReal(log: Log, ag: Agent, ag': Agent)
    requires AgentReal(log, ag) && NoNewMarks(ag, ag')
    ensures AgentReal(log, ag')
  {
    forall k, j | 0 <= k < |ag'.sessions| && 0 <= j < |ag'.sessions[k].acks| ensures Real(log, ag'.sessions[k].acks[j]) {
      assert Real(log, ag.sessions[k].acks[j]);
    }
  }

  /** The steps that bring no new mark. */
  lemma OtherReal(st: State, step: Step, cfg: Config)
    requires AllReal(st) && Enabled(st, step, cfg)
    requires step.Flush? || step.Connect? || step.Disconnect? || step.Cut? || step.Deliver? || step.AgentCrash?
          || step.BeginSeal? || step.PutBody? || step.PutSidecar? || step.FailSeal? || step.ManagerCrash?
    ensures AllReal(Apply(st, step, cfg))
  {
    var st' := Apply(st, step, cfg);
    OtherMarks(st, step, cfg);
    forall a | a in st'.agents ensures AgentReal(st.log, st'.agents[a]) {
      OldMarksReal(st.log, st.agents[a], st'.agents[a]);
    }
  }

  lemma OtherMarks(st: State, step: Step, cfg: Config)
    requires Enabled(st, step, cfg)
    requires step.Flush? || step.Connect? || step.Disconnect? || step.Cut? || step.Deliver? || step.AgentCrash?
          || step.BeginSeal? || step.PutBody? || step.PutSidecar? || step.FailSeal? || step.ManagerCrash?
    ensures
      var st' := Apply(st, step, cfg);
      && st'.log == st.log
      && (st'.manager.Up? ==> st.manager.Up? && st'.manager.spool.committed == st.manager.spool.committed)
      && forall a :: a in st'.agents ==> a in st.agents && NoNewMarks(st.agents[a], st'.agents[a])
  {
    hide C.Flushed, C.FlushedBatch, C.Unsent, InLog, Unused, NoNewMarks, WithoutFlight, MaxOff;
    forall a | a in st.agents ensures NoNewMarks(st.agents[a], st.agents[a]) { MarksStay(st.agents[a], st.agents[a]); }
    if step.Flush? || step.Connect? || step.Disconnect? || step.Cut? || step.Deliver? || step.AgentCrash? {
      MarksStay(st.agents[step.a], Apply(st, step, cfg).agents[step.a]);
    } else if step.ManagerCrash? {
      forall a | a in st.agents { MarksStay(st.agents[a], Apply(st, step, cfg).agents[a]); }
    }
  }

  lemma MarksStay(ag: Agent, ag': Agent)
    requires ag'.checkpoint == ag.checkpoint
    requires forall k :: 0 <= k < |ag'.sessions| ==>
      ag'.sessions[k].acks == [] || (k < |ag.sessions| && ag'.sessions[k].acks == ag.sessions[k].acks)
    ensures NoNewMarks(ag, ag')
  {
  }

  lemma AckReal(log: Log, ag: Agent, k: nat)
    requires AgentReal(log, ag) && k < |ag.sessions| && |ag.sessions[k].acks| > 0
    ensures AgentReal(log, AfterAck(ag, k))
  {
    var ack := ag.sessions[k].acks[0];
    assert Real(log, ack);
    RealMerge(log, ag.checkpoint, ack);
    var ag' := AfterAck(ag, k);
    forall i, j | 0 <= i < |ag'.sessions| && 0 <= j < |ag'.sessions[i].acks| ensures Real(log, ag'.sessions[i].acks[j]) {
      if i == k { assert ag'.sessions[i].acks[j] == ag.sessions[i].acks[j + 1]; }
    }
  }

  lemma ReadStepReal(st: State, a: nat, r: Record, cfg: Config)
    requires Sound(st) && AllReal(st) && Enabled(st, Read(a, r), cfg)
    ensures AllReal(Apply(st, Read(a, r), cfg))
  {
    hide AgentReal, Real, AfterRead, IsNext, LogOk, StoreOk, ManagerOk, HeldBelow, InLog;
    ReadReal(st.log, st.agents[a], r, cfg.rawLen(r), cfg.caps);
  }

  lemma AckStepReal(st: State, a: nat, k: nat, cfg: Config)
    requires AllReal(st) && Enabled(st, ApplyAck(a, k), cfg)
    ensures AllReal(Apply(st, ApplyAck(a, k), cfg))
  {
    hide AgentReal, Real, AfterAck;
    AckReal(st.log, st.agents[a], k);
  }

  lemma RecoverReal(st: State, cfg: Config)
    requires Sound(st) && AllReal(st) && Enabled(st, ManagerRecover, cfg)
    ensures AllReal(Apply(st, ManagerRecover, cfg))
  {
    hide Sound, AgentReal, Real, Watermarks;
    RealMark(st);
  }

  lemma RealStep(st: State, step: Step, cfg: Config)
    requires Sound(st) && AllReal(st) && Enabled(st, step, cfg)
    ensures AllReal(Apply(st, step, cfg))
  {
    hide Sound, AllReal, Enabled, Apply;
    match step {
      case Append(r) => AppendReal(st, r, cfg);
      case Read(a, r) => ReadStepReal(st, a, r, cfg);
      case ApplyAck(a, k) => AckStepReal(st, a, k, cfg);
      case SendAck(a, k) => SendAckReal(st, a, k, cfg);
      case LoseAck(a, k) => LoseAckReal(st, a, k, cfg);
      case FinishSeal(k) => FinishReal(st, k, cfg);
      case ManagerRecover => RecoverReal(st, cfg);
      case _ => OtherReal(st, step, cfg);
    }
  }

  lemma AppendReal(st: State, r: Record, cfg: Config)
    requires Sound(st) && AllReal(st) && Enabled(st, Append(r), cfg)
    ensures AllReal(Apply(st, Append(r), cfg))
  {
    var st' := Apply(st, Append(r), cfg);
    if st.manager.Up? { RealGrows(st.log, st'.log, r, st.manager.spool.committed); }
    forall a | a in st.agents ensures AgentReal(st'.log, st.agents[a]) {
      RealGrows(st.log, st'.log, r, st.agents[a].checkpoint);
      forall k, j | 0 <= k < |st.agents[a].sessions| && 0 <= j < |st.agents[a].sessions[k].acks|
        ensures Real(st'.log, st.agents[a].sessions[k].acks[j])
      {
        RealGrows(st.log, st'.log, r, st.agents[a].sessions[k].acks[j]);
      }
    }
  }

  lemma SendAckReal(st: State, a: nat, k: nat, cfg: Config)
    requires AllReal(st) && Enabled(st, SendAck(a, k), cfg)
    ensures AllReal(Apply(st, SendAck(a, k), cfg))
  {
    var s, s' := st.agents[a].sessions[k], Apply(st, SendAck(a, k), cfg).agents[a].sessions[k];
    forall j | 0 <= j < |s'.acks| ensures Real(st.log, s'.acks[j]) {
      if j < |s.acks| { assert s'.acks[j] == s.acks[j]; }
    }
  }

  lemma FinishReal(st: State, k: nat, cfg: Config)
    requires Sound(st) && AllReal(st) && Enabled(st, FinishSeal(k), cfg)
    ensures AllReal(Apply(st, FinishSeal(k), cfg))
  {
    var batch := st.manager.flights[k].batch;
    forall r | r in batch ensures InLog(st.log, r) {
      assert InFlight(st.manager, r) && Held(st, r);
    }
    RealMaxOff(st.log, batch);
    RealMerge(st.log, st.manager.spool.committed, MaxOff(batch));
  }

  /** Every checkpoint value reachable through acks is the offset of a record. */
  lemma {:induction false} CheckpointIsLineEnd(states: seq<State>, steps: seq<Step>, cfg: Config, i: nat)
    requires IsRun(states, steps, cfg) && i < |states|
    ensures AllReal(states[i])
    decreases i
  {
    if i > 0 {
      CheckpointIsLineEnd(states, steps, cfg, i - 1);
      AlwaysSound(states, steps, cfg, i - 1);
      RealStep(states[i - 1], steps[i - 1], cfg);
    }
  }

  /** Restarting an agent: when the log of a file is what its tail emits, the tail
      that starts at the checkpoint emits exactly the records past it. */
  lemma RestartResumes(states: seq<State>, steps: seq<Step>, cfg: Config, i: nat, a: nat, ctx: T.Context, content: string)
    requires IsRun(states, steps, cfg) && i < |states| && a in states[i].agents
    requires ctx.source in states[i].log && states[i].log[ctx.source] == T.Sent(ctx, T.Fresh(0), content)
    ensures
      var checkpoint := At(states[i].agents[a].checkpoint, ctx.source);
      && checkpoint >= 0
      && T.Sent(ctx, T.Fresh(checkpoint), content) == T.Past(states[i].log[ctx.source], checkpoint)
  {
    CheckpointIsLineEnd(states, steps, cfg, i);
    AlwaysSound(states, steps, cfg, i);
    var st := states[i];
    var m := st.agents[a].checkpoint;
    if ctx.source in m {
      assert AgentReal(st.log, st.agents[a]);
      var r :| InLog(st.log, r) && r.source == ctx.source && r.offset == m[ctx.source];
      WithinEnd(st.log, r);
    }
    T.ResumeFromCheckpoint(ctx, content, At(m, ctx.source));
  }
}
