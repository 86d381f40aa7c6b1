/**
  The delivery protocol over whole runs: what an agent has checkpointed is
  durable, and when exactly overlapping seals break that.
 */
module DeliveryRuns {
  import opened Model
  import opened Offsets
  import opened Delivery
  import opened DeliveryAgents
  import opened DeliverySound
  import opened DeliverySteps
  import S = Spooling
  import C = IngestClient

  // ---- Steps that leave the manager alone ----

  lemma HeldUnchanged(st: State, st': State)
    requires st'.s3 == st.s3 && st'.manager == st.manager && st'.log == st.log && st.shed <= st'.shed
    requires LogOk(st.log) && StoreOk(st.s3) && ManagerOk(st) && ContentOk(st)
    ensures StoreOk(st'.s3) && ManagerOk(st') && ContentOk(st')
  {
    forall r ensures Held(st', r) <==> Held(st, r) {}
  }

  /** A step that changes one agent, and may shed records. */
  lemma OneAgent(st: State, st': State, a: nat)
    requires Inv(st) && a in st.agents && st.shed <= st'.shed && a in st'.agents
    requires st' == WithAgent(st, a, st'.agents[a]).(shed := st'.shed)
    requires AgentOk(st.log, Mark(st), Received(st), st'.shed, st'.agents[a])
    requires st.manager.Down? ==> Silent(st'.agents[a])
    ensures Inv(st')
  {
    HeldUnchanged(st, st');
    forall b | b in st'.agents && b != a
      ensures AgentOk(st'.log, Mark(st'), Received(st'), st'.shed, st'.agents[b])
    {
      AgentOkWhenMarksGrow(st.log, Mark(st), Received(st), st.shed, Mark(st), Received(st), st'.shed, st.agents[b]);
    }
  }

  lemma ReadStepKeeps(st: State, a: nat, r: Record, cfg: Config)
    requires Inv(st) && Enabled(st, Read(a, r), cfg)
    ensures Inv(Apply(st, Read(a, r), cfg))
  {
    hide ContentOk, ManagerOk, StoreOk, LogOk, C.Enqueued, C.Shed, Watermarks, AgentOk;
    ReadKeeps(st.log, Mark(st), Received(st), st.shed, st.agents[a], r, cfg.rawLen(r), cfg.caps);
    OneAgent(st, Apply(st, Read(a, r), cfg), a);
  }

  lemma FlushStepKeeps(st: State, a: nat, cfg: Config)
    requires Inv(st) && Enabled(st, Flush(a), cfg)
    ensures Inv(Apply(st, Flush(a), cfg))
  {
    hide ContentOk, ManagerOk, StoreOk, LogOk, C.Flushed, C.FlushedBatch, C.AckApplied, C.Unsent, Watermarks, MergeMax, AgentOk;
    MarkBelowReceived(st);
    FlushKeeps(st.log, Mark(st), Received(st), st.shed, st.agents[a], cfg.caps);
    OneAgent(st, Apply(st, Flush(a), cfg), a);
  }

  lemma ConnectStepKeeps(st: State, a: nat, cfg: Config)
    requires Inv(st) && Enabled(st, Connect(a), cfg)
    ensures Inv(Apply(st, Connect(a), cfg))
  {
    hide ContentOk, ManagerOk, StoreOk, LogOk, C.Flushed, C.FlushedBatch, C.AckApplied, C.Unsent, Watermarks, MergeMax, AgentOk;
    ConnectKeeps(st, a, cfg);
    OneAgent(st, Apply(st, Connect(a), cfg), a);
  }

  lemma DisconnectStepKeeps(st: State, a: nat, cfg: Config)
    requires Inv(st) && Enabled(st, Disconnect(a), cfg)
    ensures Inv(Apply(st, Disconnect(a), cfg))
  {
    hide ContentOk, ManagerOk, StoreOk, LogOk, Watermarks, NoGap, Covered, Bounded, SessionsOk, C.WindowOk;
    assert AgentOk(st.log, Mark(st), Received(st), st.shed, st.agents[a]);
    OneAgent(st, Apply(st, Disconnect(a), cfg), a);
  }

  lemma AckStepKeeps(st: State, a: nat, k: nat, cfg: Config)
    requires Inv(st) && Enabled(st, ApplyAck(a, k), cfg)
    ensures Inv(Apply(st, ApplyAck(a, k), cfg))
  {
    hide ContentOk, ManagerOk, StoreOk, LogOk, C.Flushed, C.FlushedBatch, C.AckApplied, C.Unsent, Watermarks, MergeMax, AgentOk;
    MarkBelowReceived(st);
    ApplyAckKeeps(st.log, Mark(st), Received(st), st.shed, st.agents[a], k);
    OneAgent(st, Apply(st, ApplyAck(a, k), cfg), a);
  }

  lemma CrashStepKeeps(st: State, a: nat, cfg: Config)
    requires Inv(st) && Enabled(st, AgentCrash(a), cfg)
    ensures Inv(Apply(st, AgentCrash(a), cfg))
  {
    hide ContentOk, ManagerOk, StoreOk, LogOk, C.Flushed, C.FlushedBatch, C.AckApplied, C.Unsent, Watermarks, MergeMax, AgentOk;
    AgentCrashKeeps(st, a, cfg);
    OneAgent(st, Apply(st, AgentCrash(a), cfg), a);
  }

  lemma OneSession(st: State, a: nat, k: nat, s: Session)
    requires Inv(st) && a in st.agents && k < |st.agents[a].sessions|
    requires st.agents[a].live && k == |st.agents[a].sessions| - 1 ==> s.data == st.agents[a].sessions[k].data
    requires st.agents[a].sessions[k].data == [] ==> s.data == []
    requires SessionOk(st.log, Mark(st), Received(st), st.shed, s)
    ensures Inv(WithAgent(st, a, WithSession(st.agents[a], k, s)))
  {
    hide ContentOk, StoreOk, LogOk, Watermarks, SessionOk, AgentOk, FlightsOk;
    SessionKeeps(st.log, Mark(st), Received(st), st.shed, st.agents[a], k, s);
    OneAgent(st, WithAgent(st, a, WithSession(st.agents[a], k, s)), a);
  }

  lemma SessionIsOk(st: State, a: nat, k: nat)
    requires Inv(st) && a in st.agents && k < |st.agents[a].sessions|
    ensures SessionOk(st.log, Mark(st), Received(st), st.shed, st.agents[a].sessions[k])
  {
    assert AgentOk(st.log, Mark(st), Received(st), st.shed, st.agents[a]);
  }

  lemma CutStepKeeps(st: State, a: nat, k: nat, keep: nat, cfg: Config)
    requires Inv(st) && Enabled(st, Cut(a, k, keep), cfg)
    ensures Inv(Apply(st, Cut(a, k, keep), cfg))
  {
    hide ContentOk, StoreOk, LogOk, Watermarks, NoGap, Below, C.WindowOk, BuildAck, AgentOk;
    var s := st.agents[a].sessions[k];
    SessionIsOk(st, a, k);
    CutKeeps(st.log, Mark(st), Received(st), st.shed, s, keep);
    OneSession(st, a, k, Apply(st, Cut(a, k, keep), cfg).agents[a].sessions[k]);
  }

  lemma SendAckStepKeeps(st: State, a: nat, k: nat, cfg: Config)
    requires Inv(st) && Enabled(st, SendAck(a, k), cfg)
    ensures Inv(Apply(st, SendAck(a, k), cfg))
  {
    hide ContentOk, StoreOk, LogOk, Watermarks, NoGap, Below, C.WindowOk, BuildAck, AgentOk;
    var s := st.agents[a].sessions[k];
    SessionIsOk(st, a, k);
    SendAckKeeps(st.log, Mark(st), Received(st), st.shed, s, st.manager.spool.committed);
    OneSession(st, a, k, Apply(st, SendAck(a, k), cfg).agents[a].sessions[k]);
  }

  lemma LoseAckStepKeeps(st: State, a: nat, k: nat, cfg: Config)
    requires Inv(st) && Enabled(st, LoseAck(a, k), cfg)
    ensures Inv(Apply(st, LoseAck(a, k), cfg))
  {
    hide ContentOk, StoreOk, LogOk, Watermarks, NoGap, Below, C.WindowOk, BuildAck, AgentOk;
    var s := st.agents[a].sessions[k];
    SessionIsOk(st, a, k);
    LoseAckKeeps(st.log, Mark(st), Received(st), st.shed, s);
    OneSession(st, a, k, Apply(st, LoseAck(a, k), cfg).agents[a].sessions[k]);
  }

  lemma AppendKeeps(st: State, r: Record, cfg: Config)
    requires Inv(st) && Enabled(st, Append(r), cfg)
    ensures Inv(Apply(st, Append(r), cfg))
  {
    var st' := Apply(st, Append(r), cfg);
    MarkBelowReceived(st);
    ExtendedLog(st.log, st'.log, r);
    AppendContent(st, st', r);
    forall a | a in st'.agents ensures AgentOk(st'.log, Mark(st'), Received(st'), st'.shed, st'.agents[a]) {
      AgentOkWhenLogGrows(st.log, st'.log, r, Mark(st), Received(st), st.shed, st.agents[a]);
    }
  }

  lemma AppendContent(st: State, st': State, r: Record)
    requires LogOk(st.log) && StoreOk(st.s3) && ContentOk(st) && Bounded(st.log, Mark(st))
    requires st' == st.(log := st'.log) && Extends(st.log, st'.log, r)
    ensures ContentOk(st')
  {
    hide Watermarks, MergeMax, InFlight, Buffered, Durable, LogOk, InLog;
    ExtendedLog(st.log, st'.log, r);
    EndNotNegative(st.log, r.source);
    assert Mark(st') == Mark(st) && Received(st') == Received(st);
    assert r.offset > At(Received(st), r.source) && r.offset > At(Mark(st), r.source);
    forall s | s in Received(st) ensures Received(st)[s] <= End(st'.log, s) {
      assert End(st.log, s) <= End(st'.log, s);
    }
    forall x | Held(st', x) ensures InLog(st'.log, x) && x.offset <= At(Received(st), x.source) {
      assert Held(st, x);
    }
    forall q | InLog(st'.log, q) && q.offset <= At(Received(st), q.source) ensures Held(st', q) || q in st.shed {
      assert InLog(st.log, q);
      assert Held(st, q) || q in st.shed;
    }
    forall q | InLog(st'.log, q) && q.offset <= At(Mark(st), q.source) ensures Durable(st.s3, q) || q in st.shed {
      assert InLog(st.log, q);
    }
  }

  // ---- Steps of the manager ----

  /** Agents do not notice marks moving forward. */
  lemma AgentsUnchanged(st: State, st': State)
    requires Inv(st) && st'.log == st.log && st'.agents == st.agents && st'.shed == st.shed && st'.manager.Up?
    requires Grows(Mark(st), Mark(st')) && Grows(Received(st), Received(st'))
    ensures AgentsOk(st')
  {
    forall a | a in st'.agents ensures AgentOk(st'.log, Mark(st'), Received(st'), st'.shed, st'.agents[a]) {
      AgentOkWhenMarksGrow(st.log, Mark(st), Received(st), st.shed, Mark(st'), Received(st'), st.shed, st.agents[a]);
    }
  }

  /** Dedup by watermark: a record that continues the log is taken exactly when
      the manager does not hold it. */
  lemma AcceptKeeps(st: State, st': State, r: Record, cfg: Config)
    requires LogOk(st.log) && StoreOk(st.s3) && ManagerOk(st) && ContentOk(st) && st.manager.Up?
    requires InLog(st.log, r) && Preceded(st.log, Received(st), st.shed, [], r)
    requires st'.log == st.log && st'.s3 == st.s3 && st'.shed == st.shed
    requires st'.manager == st.manager.(spool := S.Accepted(st.manager.spool, r, cfg.size))
    ensures ManagerOk(st') && ContentOk(st')
    ensures Grows(Received(st), Received(st')) && r.offset <= At(Received(st'), r.source)
  {
    hide Durable, AgentOk, LogOk, MaxOff, Watermarks, StoreOk, FlightOk, Buffered, SessionOk, Preceded, Below, Bounded;
    WithinEnd(st.log, r);
    if S.IsDuplicate(st.manager.spool, r) {
      forall x ensures Held(st', x) <==> Held(st, x) {}
    } else {
      AcceptedHeld(st, st', r);
      AcceptedContent(st, st', r);
    }
  }

  lemma AcceptedContent(st: State, st': State, r: Record)
    requires LogOk(st.log) && ContentOk(st) && InLog(st.log, r) && Preceded(st.log, Received(st), st.shed, [], r)
    requires st.manager.Up? && st'.manager.Up? && st'.log == st.log && st'.s3 == st.s3 && st'.shed == st.shed
    requires Received(st') == Received(st)[r.source := r.offset] && r.offset > At(Received(st), r.source)
    requires forall x :: Held(st', x) <==> Held(st, x) || x == r
    ensures ContentOk(st')
  {
    hide Durable, InFlight, Buffered, Held, LogOk, Watermarks;
    WithinEnd(st.log, r);
    forall q | InLog(st.log, q) && q.offset <= At(Received(st'), q.source) ensures Held(st', q) || q in st.shed {
      if q.source == r.source && q.offset == r.offset { SameOffsetSameRecord(st.log, q, r); }
    }
  }

  lemma DeliverStepKeeps(st: State, a: nat, k: nat, cfg: Config)
    requires Inv(st) && Enabled(st, Deliver(a, k), cfg)
    ensures Inv(Apply(st, Deliver(a, k), cfg))
  {
    hide Watermarks, MergeMax, MaxOff, LogOk, StoreOk, ManagerOk, Covered, C.WindowOk, ContentOk, Preceded;
    var st' := Apply(st, Deliver(a, k), cfg);
    var ag := st.agents[a];
    var s := ag.sessions[k];
    var r := s.data[0];
    assert SessionOk(st.log, Mark(st), Received(st), st.shed, s);
    assert Preceded(st.log, Received(st), st.shed, s.data[..0], r);
    AcceptKeeps(st, st', r, cfg);
    DeliverKeeps(st.log, Mark(st), Received(st), Received(st'), st.shed, ag, k, s.seen + {r.source});
    forall b | b in st'.agents && b != a
      ensures AgentOk(st'.log, Mark(st'), Received(st'), st'.shed, st'.agents[b])
    {
      AgentOkWhenMarksGrow(st.log, Mark(st), Received(st), st.shed, Mark(st), Received(st'), st.shed, st.agents[b]);
    }
  }

  /** A step inside the manager keeps the invariant if it keeps the mark covered. */
  lemma HoldsOnKeeps(st: State, st': State)
    requires Inv(st) && HoldsOn(st, st') && Grows(Mark(st), Mark(st')) && MarkCovered(st')
    ensures Inv(st')
  {
    hide LogOk, StoreOk, ManagerOk, MarkCovered, Held, InLog, AgentsOk, Watermarks;
    AgentsUnchanged(st, st');
  }

  lemma SealStepKeeps(st: State, step: Step, cfg: Config)
    requires Inv(st) && Enabled(st, step, cfg)
    requires step.BeginSeal? || step.PutBody? || step.FinishSeal? || step.FailSeal?
    ensures Inv(Apply(st, step, cfg))
  {
    hide Durable, AgentsOk, LogOk, StoreOk, ManagerOk, HoldsOn, HeldBelow, Held, InLog, Unused, WithoutFlight, MaxOff, MergeMax;
    match step {
      case BeginSeal(batch, id) => BeginSealHolds(st, batch, id, cfg);
      case PutBody(k) => PutBodyHolds(st, k, cfg);
      case FinishSeal(k) => FinishSealHolds(st, k, cfg);
      case FailSeal(k) => FailSealHolds(st, k, cfg);
    }
    HoldsOnKeeps(st, Apply(st, step, cfg));
  }

  /** Durability: storing the sidecar of a ready batch raises the mark to the end
      of the batch, and everything up to there is then in S3. */
  lemma PutSidecarKeeps(st: State, k: nat, cfg: Config)
    requires Inv(st) && Enabled(st, PutSidecar(k), cfg) && Ready(st, st.manager.flights[k].batch)
    ensures Inv(Apply(st, PutSidecar(k), cfg))
  {
    hide Durable, AgentsOk, LogOk, StoreOk, ManagerOk, HoldsOn, Ready, InLog, MarkCovered, MaxOff, MergeMax, Watermarks;
    PutSidecarHolds(st, k, cfg);
    FlightInLog(st, k);
    MarkCoveredIff(st, Apply(st, PutSidecar(k), cfg), st.manager.flights[k].batch);
    HoldsOnKeeps(st, Apply(st, PutSidecar(k), cfg));
  }

  lemma FlightInLog(st: State, k: nat)
    requires HeldBelow(st) && st.manager.Up? && k < |st.manager.flights|
    ensures forall r :: r in st.manager.flights[k].batch ==> InLog(st.log, r)
  {
    forall r | r in st.manager.flights[k].batch ensures InLog(st.log, r) { assert InFlight(st.manager, r) && Held(st, r); }
  }

  /** The sidecar of a batch leaves the mark covered exactly when the batch was ready. */
  lemma MarkCoveredIff(st: State, st': State, batch: seq<Record>)
    requires LogOk(st.log) && MarkCovered(st) && st'.log == st.log && st'.shed == st.shed
    requires Mark(st') == MergeMax(Mark(st), MaxOff(batch)) && forall r :: r in batch ==> InLog(st.log, r)
    requires forall x :: Durable(st'.s3, x) <==> Durable(st.s3, x) || x in batch
    ensures MarkCovered(st') <==> Ready(st, batch)
  {
    hide Durable;
    MaxOffIsMax(batch);
    if Ready(st, batch) {
      forall q | InLog(st.log, q) && q.offset <= At(Mark(st'), q.source) ensures Durable(st'.s3, q) || q in st.shed {
        MergeMaxAt(Mark(st), MaxOff(batch), q.source);
        if q.offset > At(Mark(st), q.source) {
          WithinEnd(st.log, q);
          var top :| top in batch && top.source == q.source && top.offset == At(MaxOff(batch), q.source);
          if q.offset == top.offset { SameOffsetSameRecord(st.log, q, top); }
        }
      }
    }
    if MarkCovered(st') {
      forall q, r | InLog(st.log, q) && r in batch && q.source == r.source && q.offset < r.offset
        ensures Durable(st.s3, q) || q in batch || q in st.shed
      {
        MergeMaxAt(Mark(st), MaxOff(batch), q.source);
        WithinEnd(st.log, r);
      }
    }
  }

  /** Only what S3 holds survives, and its sidecars give its watermark back. */
  lemma CrashKeeps(st: State, cfg: Config)
    requires Inv(st) && st.manager.Up?
    ensures Inv(Apply(st, ManagerCrash, cfg))
  {
    hide AgentOk, LogOk, StoreOk, Watermarks, MergeMax, Severed;
    var st' := Apply(st, ManagerCrash, cfg);
    MarkBelowReceived(st);
    MarkIsMax(st.s3);
    forall x ensures Held(st', x) <==> Durable(st.s3, x) {}
    forall x | Durable(st.s3, x) ensures InLog(st.log, x) && x.offset <= At(Mark(st), x.source) { assert Held(st, x); }
    forall a | a in st'.agents ensures AgentOk(st'.log, Mark(st'), Received(st'), st'.shed, st'.agents[a]) && Silent(st'.agents[a]) {
      AgentOkAlone(st.log, Mark(st), Received(st), st.shed, st.agents[a]);
    }
  }

  /** An agent with nothing on its way depends on no dedup watermark. */
  lemma AgentOkAlone(log: map<string, seq<Record>>, mark: map<string, int>, received: map<string, int>, shed: set<Record>, ag: Agent)
    requires AgentOk(log, mark, received, shed, ag)
    ensures AgentOk(log, mark, mark, shed, Severed(ag)) && Silent(Severed(ag))
  {
    forall k | 0 <= k < |ag.sessions| ensures SessionOk(log, mark, mark, shed, Severed(ag).sessions[k]) {
      assert SessionOk(log, mark, received, shed, ag.sessions[k]);
    }
  }

  lemma RecoverKeeps(st: State, cfg: Config)
    requires Inv(st) && st.manager.Down?
    ensures Inv(Apply(st, ManagerRecover, cfg))
  {
    var st' := Apply(st, ManagerRecover, cfg);
    forall x ensures Held(st', x) <==> Held(st, x) {}
    forall a | a in st'.agents ensures AgentOk(st'.log, Mark(st'), Received(st'), st'.shed, st'.agents[a]) {
      assert AgentOk(st.log, Mark(st), Received(st), st.shed, st.agents[a]);
    }
  }

  lemma StepKeeps(st: State, step: Step, cfg: Config)
    requires Inv(st) && Enabled(st, step, cfg)
    requires StoresReady(st, step)
    ensures Inv(Apply(st, step, cfg))
  {
    hide Inv, Apply, NoGap, Ready;
    match step
    case Append(r) => AppendKeeps(st, r, cfg);
    case Read(a, r) => ReadStepKeeps(st, a, r, cfg);
    case Flush(a) => FlushStepKeeps(st, a, cfg);
    case Connect(a) => ConnectStepKeeps(st, a, cfg);
    case Disconnect(a) => DisconnectStepKeeps(st, a, cfg);
    case Cut(a, k, keep) => CutStepKeeps(st, a, k, keep, cfg);
    case Deliver(a, k) => DeliverStepKeeps(st, a, k, cfg);
    case SendAck(a, k) => SendAckStepKeeps(st, a, k, cfg);
    case ApplyAck(a, k) => AckStepKeeps(st, a, k, cfg);
    case LoseAck(a, k) => LoseAckStepKeeps(st, a, k, cfg);
    case AgentCrash(a) => CrashStepKeeps(st, a, cfg);
    case BeginSeal(_, _) => SealStepKeeps(st, step, cfg);
    case PutBody(_) => SealStepKeeps(st, step, cfg);
    case PutSidecar(k) => PutSidecarKeeps(st, k, cfg);
    case FinishSeal(_) => SealStepKeeps(st, step, cfg);
    case FailSeal(_) => SealStepKeeps(st, step, cfg);
    case ManagerCrash => CrashKeeps(st, cfg);
    case ManagerRecover => RecoverKeeps(st, cfg);
  }

  lemma InitialOk(st: State)
    requires Initial(st)
    ensures Inv(st)
  {
    assert C.Records([]) == [];
  }

  /** The invariant holds in every state that sidecars stored in turn lead to. */
  lemma {:induction false} Invariant(states: seq<State>, steps: seq<Step>, cfg: Config, i: nat)
    requires IsRun(states, steps, cfg) && i < |states| && InTurn(states, steps, i)
    ensures Inv(states[i])
    decreases i
  {
    hide Inv, Apply, Initial, StoresReady;
    if i == 0 {
      InitialOk(states[0]);
    } else {
      Invariant(states, steps, cfg, i - 1);
      StepKeeps(states[i - 1], steps[i - 1], cfg);
    }
  }

  // ---- Sidecars in turn ----

  lemma FirstUnready(states: seq<State>, steps: seq<Step>, n: nat) returns (i: nat)
    requires |states| == |steps| + 1 && n <= |steps| && !InTurn(states, steps, n)
    ensures i < n && InTurn(states, steps, i) && !StoresReady(states[i], steps[i])
  {
    hide StoresReady;
    i := 0;
    while StoresReady(states[i], steps[i])
      invariant i < n && InTurn(states, steps, i)
      decreases n - i
    {
      i := i + 1;
    }
  }

  /** What the mark of the sidecars promises holds throughout a run, however
      seals overlap, exactly when each sidecar is stored of a ready batch. */
  lemma MarkCoveredThroughoutIff(states: seq<State>, steps: seq<Step>, cfg: Config)
    requires IsRun(states, steps, cfg)
    ensures (forall i :: 0 <= i < |states| ==> MarkCovered(states[i])) <==> InTurn(states, steps, |steps|)
  {
    hide MarkCovered, Inv, Apply, Enabled, StoresReady;
    if InTurn(states, steps, |steps|) {
      forall i | 0 <= i < |states| ensures MarkCovered(states[i]) {
        Invariant(states, steps, cfg, i);
        InvMarkCovered(states[i]);
      }
    } else {
      var i := FirstUnready(states, steps, |steps|);
      Invariant(states, steps, cfg, i);
      UnreadyUncovers(states[i], steps[i], cfg);
      assert states[i + 1] == Apply(states[i], steps[i], cfg);
    }
  }

  lemma InvMarkCovered(st: State)
    requires Inv(st)
    ensures MarkCovered(st)
  {
  }

  lemma UnreadyUncovers(st: State, step: Step, cfg: Config)
    requires Inv(st) && Enabled(st, step, cfg) && !StoresReady(st, step)
    ensures !MarkCovered(Apply(st, step, cfg))
  {
    hide Durable, AgentsOk, MergeMax, MaxOff, LogOk, ManagerOk, Ready, StoreOk, MarkCovered, HoldsOn, InLog;
    PutSidecarHolds(st, step.k, cfg);
    FlightInLog(st, step.k);
    MarkCoveredIff(st, Apply(st, step, cfg), st.manager.flights[step.k].batch);
  }

  ghost predicate InOtherFlight(fs: seq<Flight>, k: nat, q: Record) {
    exists j :: 0 <= j < |fs| && j != k && q in fs[j].batch
  }

  /** What the manager itself can tell: nothing in another seal or in the buffer
      comes before a record of the batch, but for what is durable or was shed. */
  ghost predicate NothingEarlier(st: State, k: nat)
    requires st.manager.Up? && k < |st.manager.flights|
  {
    forall q, r ::
      (Buffered(st.manager, q) || InOtherFlight(st.manager.flights, k, q))
      && r in st.manager.flights[k].batch && q.source == r.source && q.offset < r.offset ==>
        Durable(st.s3, q) || q in st.manager.flights[k].batch || q in st.shed
  }

  lemma ReadyIff(st: State, k: nat)
    requires ContentOk(st) && st.manager.Up? && k < |st.manager.flights|
    ensures Ready(st, st.manager.flights[k].batch) <==> NothingEarlier(st, k)
  {
    hide Durable, MarkCovered, Bounded, InLog;
    var batch := st.manager.flights[k].batch;
    forall q | Buffered(st.manager, q) || InOtherFlight(st.manager.flights, k, q) ensures InLog(st.log, q) {
      assert Held(st, q);
    }
    if NothingEarlier(st, k) {
      forall q, r | InLog(st.log, q) && r in batch && q.source == r.source && q.offset < r.offset
        ensures Durable(st.s3, q) || q in batch || q in st.shed
      {
        assert InFlight(st.manager, r) && Held(st, r);
        assert Held(st, q) || q in st.shed;
      }
    }
  }

  /** Whether sidecars are stored in turn can be told from the manager alone. */
  lemma {:induction false} InTurnIff(states: seq<State>, steps: seq<Step>, cfg: Config, n: nat)
    requires IsRun(states, steps, cfg) && n <= |steps|
    ensures InTurn(states, steps, n) <==> forall i :: 0 <= i < n && steps[i].PutSidecar? ==> NothingEarlier(states[i], steps[i].k)
  {
    hide Inv, Apply, Ready, NothingEarlier, LogOk, ContentOk;
    if n > 0 {
      InTurnIff(states, steps, cfg, n - 1);
      if InTurn(states, steps, n - 1) && steps[n - 1].PutSidecar? {
        Invariant(states, steps, cfg, n - 1);
        InvContent(states[n - 1]);
        ReadyIff(states[n - 1], steps[n - 1].k);
      }
    }
  }

  /** One seal at a time, whose records come before those still open. */
  ghost predicate OneSeal(m: Manager) {
    m.Up? ==> |m.flights| <= 1 && forall k :: 0 <= k < |m.flights| ==> Precedes(m.flights[k].batch, m.spool.buf)
  }

  /** Records of one source in `early` have lower offsets than those in `late`. */
  ghost predicate Precedes(early: seq<Record>, late: seq<Record>) {
    forall a, b :: a in early && b in late && a.source == b.source ==> a.offset < b.offset
  }

  lemma OneSealStep(st: State, step: Step, cfg: Config)
    requires LogOk(st.log) && ContentOk(st) && Enabled(st, step, cfg) && OneSeal(st.manager)
    requires step.BeginSeal? && st.manager.Up? ==> st.manager.flights == []
    ensures OneSeal(Apply(st, step, cfg).manager)
  {
    hide MaxOff, MergeMax, Watermarks, MarkCovered, AfterRead, AfterFlush, AfterAck, Severed, C.Enqueued, C.Flushed, C.FlushedBatch, C.AckApplied, C.Unsent, C.Shed, Durable, IsNext, Unused, InLog, Bounded, LogOk, HeldBelow, BuildAck;
    match step
    case Deliver(a, k) => OneSealDeliver(st, st.agents[a].sessions[k].data[0], cfg);
    case _ =>
  }

  lemma OneSealDeliver(st: State, r: Record, cfg: Config)
    requires LogOk(st.log) && ContentOk(st) && st.manager.Up? && OneSeal(st.manager)
    ensures OneSeal(st.manager.(spool := S.Accepted(st.manager.spool, r, cfg.size)))
  {
    hide MarkCovered, Durable, Bounded, LogOk, InLog;
    forall k, x | 0 <= k < |st.manager.flights| && x in st.manager.flights[k].batch && x.source == r.source
      ensures r.source in Received(st) && x.offset <= Received(st)[r.source]
    {
      assert InFlight(st.manager, x) && Held(st, x);
      WithinEnd(st.log, x);
    }
  }

  lemma OneSealReady(st: State, k: nat)
    requires ContentOk(st) && OneSeal(st.manager) && st.manager.Up? && k < |st.manager.flights|
    ensures Ready(st, st.manager.flights[k].batch)
  {
    hide Durable, MarkCovered, Bounded;
    var batch := st.manager.flights[k].batch;
    forall q, r | InLog(st.log, q) && r in batch && q.source == r.source && q.offset < r.offset
      ensures Durable(st.s3, q) || q in batch || q in st.shed
    {
      assert InFlight(st.manager, r) && Held(st, r);
      assert Held(st, q) || q in st.shed;
    }
  }

  /** Seals one at a time store their sidecars in turn. */
  lemma {:induction false} SerialIsInTurn(states: seq<State>, steps: seq<Step>, cfg: Config, n: nat)
    requires IsRun(states, steps, cfg) && Serial(states, steps) && n <= |steps|
    ensures InTurn(states, steps, n) && OneSeal(states[n].manager)
  {
    hide Inv, Apply, Enabled, OneSeal, Ready, LogOk, ContentOk;
    if n == 0 {
      NothingInFlight(states[0]);
    } else {
      var i := n - 1;
      SerialIsInTurn(states, steps, cfg, i);
      Invariant(states, steps, cfg, i);
      InvContent(states[i]);
      OneSealStep(states[i], steps[i], cfg);
      if steps[i].PutSidecar? && states[i].manager.Up? && steps[i].k < |states[i].manager.flights| {
        OneSealReady(states[i], steps[i].k);
      }
    }
  }

  lemma NothingInFlight(st: State)
    requires Initial(st)
    ensures OneSeal(st.manager)
  {
  }

  lemma InvContent(st: State)
    requires Inv(st)
    ensures LogOk(st.log) && ContentOk(st)
  {
  }

  // ---- Ack on durability ----

  /** In every reachable state, every record up to an agent's checkpoint is in a
      segment whose sidecar is in S3, or was dropped at the hard cap. */
  lemma AckOnDurability(states: seq<State>, steps: seq<Step>, cfg: Config, i: nat, a: nat, q: Record)
    requires IsRun(states, steps, cfg) && i < |states| && InTurn(states, steps, i) && a in states[i].agents
    requires InLog(states[i].log, q) && q.offset <= At(states[i].agents[a].checkpoint, q.source)
    ensures Durable(states[i].s3, q) || q in states[i].shed
  {
    Invariant(states, steps, cfg, i);
    assert AgentOk(states[i].log, Mark(states[i]), Received(states[i]), states[i].shed, states[i].agents[a]);
  }

  /** Every record that is read fits the soft cap on its own. */
  ghost predicate RecordsFit(steps: seq<Step>, cfg: Config) {
    forall i :: 0 <= i < |steps| && steps[i].Read? ==> cfg.rawLen(steps[i].r) <= cfg.caps.soft
  }

  ghost predicate WindowsFit(st: State, cfg: Config) {
    forall a :: a in st.agents ==> WindowFits(st.agents[a].window, cfg)
  }

  ghost predicate WindowFits(w: C.Window, cfg: Config) {
    C.WindowOk(w) && w.heldByte <= cfg.caps.soft
  }

  /** A read, a flush, a reconnect or an ack leaves an agent's window fitting. */
  lemma WindowEvent(w: C.Window, e: C.Event, cfg: Config)
    requires WindowFits(w, cfg) && cfg.caps.hard >= 2 * cfg.caps.soft
    requires e.Offer? ==> e.rawLen <= cfg.caps.soft
    ensures WindowFits(C.After(w, e, cfg.caps), cfg)
    ensures e.Offer? ==> C.Shed(w, e.rawLen, cfg.caps).None?
  {
    C.WindowOkStep(w, e, cfg.caps);
    if e.Ack? {
      C.KeptIsShorter(w.unacked, e.acked);
    }
  }

  /** Only the agent's own steps touch its window. */
  lemma WindowsUntouched(st: State, step: Step, cfg: Config)
    requires Enabled(st, step, cfg) && !step.Read? && !step.Flush? && !step.Connect? && !step.ApplyAck? && !step.AgentCrash?
    ensures
      var st' := Apply(st, step, cfg);
      st'.shed == st.shed && st'.agents.Keys == st.agents.Keys
      && forall a :: a in st.agents ==> st'.agents[a].window == st.agents[a].window
  {
    hide S.Accepted, S.Requeued, S.CommittedUpTo, S.Seeded, Watermarks, MergeMax, MaxOff, BuildAck, WithoutFlight, Unused, InLog;
  }

  /** One agent's window changes as by one of its events. */
  lemma WindowChanges(st: State, st': State, a: nat, e: C.Event, cfg: Config)
    requires a in st.agents && WindowsFit(st, cfg) && cfg.caps.hard >= 2 * cfg.caps.soft
    requires e.Offer? ==> e.rawLen <= cfg.caps.soft
    requires st'.agents.Keys == st.agents.Keys && st'.agents[a].window == C.After(st.agents[a].window, e, cfg.caps)
    requires forall b :: b in st.agents && b != a ==> st'.agents[b] == st.agents[b]
    ensures WindowsFit(st', cfg)
    ensures e.Offer? ==> C.Shed(st.agents[a].window, e.rawLen, cfg.caps).None?
  {
    hide WindowFits, C.After, C.Shed;
    WindowEvent(st.agents[a].window, e, cfg);
  }

  /** An agent's step is one of the events of its window, or empties it. */
  lemma WindowsRead(st: State, a: nat, r: Record, cfg: Config)
    requires Enabled(st, Read(a, r), cfg) && WindowsFit(st, cfg) && cfg.caps.hard >= 2 * cfg.caps.soft
    requires cfg.rawLen(r) <= cfg.caps.soft
    ensures WindowsFit(Apply(st, Read(a, r), cfg), cfg) && Apply(st, Read(a, r), cfg).shed == st.shed
  {
    hide WindowFits, C.Enqueued, C.Shed, Raise, IsNext;
    WindowChanges(st, Apply(st, Read(a, r), cfg), a, C.Offer(r, cfg.rawLen(r)), cfg);
  }

  lemma WindowsOwn(st: State, step: Step, cfg: Config)
    requires Enabled(st, step, cfg) && WindowsFit(st, cfg) && cfg.caps.hard >= 2 * cfg.caps.soft
    requires step.Flush? || step.Connect? || step.ApplyAck? || step.AgentCrash?
    ensures WindowsFit(Apply(st, step, cfg), cfg) && Apply(st, step, cfg).shed == st.shed
  {
    hide WindowFits, C.Flushed, C.Unsent, C.AckApplied, C.FlushedBatch, MergeMax;
    var st' := Apply(st, step, cfg);
    match step
    case Flush(a) => WindowChanges(st, st', a, C.Flush, cfg);
    case Connect(a) => WindowChanges(st, st', a, C.Reconnect, cfg);
    case ApplyAck(a, k) => WindowChanges(st, st', a, C.Ack(st.agents[a].sessions[k].acks[0]), cfg);
    case AgentCrash(a) => EmptyFits(cfg);
  }

  lemma WindowsStep(st: State, step: Step, cfg: Config)
    requires Enabled(st, step, cfg) && WindowsFit(st, cfg) && cfg.caps.hard >= 2 * cfg.caps.soft
    requires step.Read? ==> cfg.rawLen(step.r) <= cfg.caps.soft
    ensures WindowsFit(Apply(st, step, cfg), cfg) && Apply(st, step, cfg).shed == st.shed
  {
    hide WindowFits, Apply, Enabled;
    if step.Read? {
      WindowsRead(st, step.a, step.r, cfg);
    } else if step.Flush? || step.Connect? || step.ApplyAck? || step.AgentCrash? {
      WindowsOwn(st, step, cfg);
    } else {
      WindowsUntouched(st, step, cfg);
    }
  }

  lemma EmptyFits(cfg: Config)
    ensures WindowFits(C.EMPTY, cfg)
  {
  }

  /** With a hard cap of at least twice the soft cap, nothing is ever shed. */
  lemma {:induction false} NothingShed(states: seq<State>, steps: seq<Step>, cfg: Config, i: nat)
    requires IsRun(states, steps, cfg) && RecordsFit(steps, cfg) && cfg.caps.hard >= 2 * cfg.caps.soft && i < |states|
    ensures states[i].shed == {} && WindowsFit(states[i], cfg)
    decreases i
  {
    if i > 0 {
      NothingShed(states, steps, cfg, i - 1);
      WindowsStep(states[i - 1], steps[i - 1], cfg);
    }
  }

  /** The promise without exception: acked is durable, from then on. */
  lemma AckedIsDurableForever(states: seq<State>, steps: seq<Step>, cfg: Config, i: nat, j: nat, a: nat, q: Record)
    requires IsRun(states, steps, cfg) && i <= j < |states| && InTurn(states, steps, j) && a in states[i].agents
    requires RecordsFit(steps, cfg) && cfg.caps.hard >= 2 * cfg.caps.soft
    requires InLog(states[i].log, q) && q.offset <= At(states[i].agents[a].checkpoint, q.source)
    ensures Durable(states[j].s3, q)
  {
    AckOnDurability(states, steps, cfg, i, a, q);
    NothingShed(states, steps, cfg, i);
    DurableForever(states, steps, cfg, i, j, q);
  }

  // ---- Watermark dedup ----

  /** Whenever Accept rejects a delivered record, the manager or S3 has it. */
  lemma DedupLosesNothing(states: seq<State>, steps: seq<Step>, cfg: Config, i: nat)
    requires IsRun(states, steps, cfg) && i < |steps| && InTurn(states, steps, i) && steps[i].Deliver?
    ensures
      var st := states[i];
      var r := st.agents[steps[i].a].sessions[steps[i].k].data[0];
      S.IsDuplicate(st.manager.spool, r) ==> Held(st, r) || r in st.shed
  {
    hide LogOk, StoreOk, ManagerOk, AgentsOk, MarkCovered, Bounded, Held, InLog, Apply, InTurn, Watermarks;
    Invariant(states, steps, cfg, i);
    AlwaysSound(states, steps, cfg, i);
    DeliveredInLog(states[i], steps[i].a, steps[i].k, cfg);
  }
}
