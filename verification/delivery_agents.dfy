/**
  Every step of an agent keeps its part of the invariant of the delivery
  protocol, whatever the manager does meanwhile.
 */
module DeliveryAgents {
  import opened Model
  import opened Offsets
  import opened Delivery
  import C = IngestClient

  // ---- Sequences without gaps ----

  lemma NoGapConcat(log: Log, mark: Marks, shed: set<Record>, rs: seq<Record>, r: Record)
    requires NoGap(log, mark, shed, rs) && InLog(log, r) && Preceded(log, mark, shed, rs, r)
    ensures NoGap(log, mark, shed, rs + [r])
  {
    var t := rs + [r];
    forall i | 0 <= i < |t| ensures InLog(log, t[i]) && Preceded(log, mark, shed, t[..i], t[i]) {
      if i == |rs| { assert t[..i] == rs; } else { assert t[..i] == rs[..i]; }
    }
  }

  lemma NoGapPrefix(log: Log, mark: Marks, shed: set<Record>, rs: seq<Record>, n: nat)
    requires NoGap(log, mark, shed, rs) && n <= |rs|
    ensures NoGap(log, mark, shed, rs[..n])
  {
    forall i | 0 <= i < n ensures InLog(log, rs[..n][i]) && Preceded(log, mark, shed, rs[..n][..i], rs[..n][i]) {
      assert rs[..n][..i] == rs[..i];
    }
  }

  /** The first record may leave once it needs no sending. */
  lemma NoGapWithoutFirst(log: Log, mark: Marks, shed: set<Record>, mark': Marks, shed': set<Record>, rs: seq<Record>)
    requires NoGap(log, mark, shed, rs) && rs != [] && Grows(mark, mark') && shed <= shed'
    requires rs[0] in shed' || rs[0].offset <= At(mark', rs[0].source)
    ensures NoGap(log, mark', shed', rs[1..])
  {
    var t := rs[1..];
    forall i | 0 <= i < |t| ensures InLog(log, t[i]) && Preceded(log, mark', shed', t[..i], t[i]) {
      assert Preceded(log, mark, shed, rs[..i + 1], rs[i + 1]);
      assert rs[..i + 1] == [rs[0]] + t[..i];
    }
  }

  // ---- One agent at a time ----

  lemma ReadShed(log: Log, mark: Marks, received: Marks, shed: set<Record>, ag: Agent, gone: Record)
    requires LogOk(log) && AgentOk(log, mark, received, shed, ag)
    requires ag.window.unacked != [] && gone == ag.window.unacked[0].rec
    ensures
      var shed' := shed + {gone};
      var rs := C.Records(ag.window.unacked)[1..];
      var checkpoint' := Raise(ag.checkpoint, gone.source, gone.offset);
      && NoGap(log, mark, shed', rs)
      && Covered(log, mark, shed', ag.read, rs)
      && Covered(log, mark, shed', checkpoint', [])
      && Bounded(log, checkpoint')
  {
    var all := C.Records(ag.window.unacked);
    var shed' := shed + {gone};
    assert all[0] == gone && InLog(log, gone) && Preceded(log, mark, shed, all[..0], all[0]);
    WithinEnd(log, gone);
    NoGapWithoutFirst(log, mark, shed, mark, shed', all);
    assert all == [gone] + all[1..];
    var checkpoint' := Raise(ag.checkpoint, gone.source, gone.offset);
    forall q | InLog(log, q) && q.offset <= At(checkpoint', q.source)
      ensures q.offset <= At(mark, q.source) || q in shed'
    {
      if q.offset > At(ag.checkpoint, q.source) {
        if q.offset == gone.offset { SameOffsetSameRecord(log, q, gone); }
      }
    }
  }

  /** The next record of a file joins what covers the file so far. */
  lemma ReadNext(log: Log, mark: Marks, shed: set<Record>, read: Marks, rs: seq<Record>, r: Record)
    requires LogOk(log) && NoGap(log, mark, shed, rs) && Covered(log, mark, shed, read, rs) && Bounded(log, read)
    requires IsNext(log, At(read, r.source), r)
    ensures NoGap(log, mark, shed, rs + [r])
    ensures Covered(log, mark, shed, read[r.source := r.offset], rs + [r])
    ensures Bounded(log, read[r.source := r.offset])
  {
    NoGapConcat(log, mark, shed, rs, r);
    WithinEnd(log, r);
    forall q | InLog(log, q) && q.offset <= At(read[r.source := r.offset], q.source)
      ensures q.offset <= At(mark, q.source) || q in shed || q in rs + [r]
    {
      if q.source == r.source && q.offset == r.offset { SameOffsetSameRecord(log, q, r); }
    }
  }

  lemma ReadKeeps(log: Log, mark: Marks, received: Marks, shed: set<Record>, ag: Agent, r: Record, rawLen: nat, caps: C.Caps)
    requires LogOk(log) && AgentOk(log, mark, received, shed, ag)
    requires IsNext(log, At(ag.read, r.source), r) && C.EnqueueOutcome(ag.window, rawLen, caps).Queued?
    ensures
      var dropped := C.Shed(ag.window, rawLen, caps);
      var shed' := if dropped.Some? then shed + {dropped.value} else shed;
      AgentOk(log, mark, received, shed', AfterRead(ag, r, rawLen, caps))
  {
    C.WindowOkStep(ag.window, C.Offer(r, rawLen), caps);
    var w' := C.Enqueued(ag.window, r, rawLen, caps);
    var rs := C.Records(ag.window.unacked);
    if C.Shed(ag.window, rawLen, caps).Some? {
      var gone := ag.window.unacked[0].rec;
      ReadShed(log, mark, received, shed, ag, gone);
      ReadNext(log, mark, shed + {gone}, ag.read, rs[1..], r);
      ReadMakes(log, mark, received, shed, ag, r, rawLen, w', Raise(ag.checkpoint, gone.source, gone.offset), 1, shed + {gone});
    } else {
      ReadNext(log, mark, shed, ag.read, rs, r);
      assert rs[0..] == rs;
      ReadMakes(log, mark, received, shed, ag, r, rawLen, w', ag.checkpoint, 0, shed);
    }
  }

  lemma ReadMakes(log: Log, mark: Marks, received: Marks, shed: set<Record>, ag: Agent, r: Record, rawLen: nat,
                  w': C.Window, checkpoint': Marks, n: nat, shed': set<Record>)
    requires AgentOk(log, mark, received, shed, ag) && shed <= shed' && C.WindowOk(w') && n <= |ag.window.unacked|
    requires w'.unacked == ag.window.unacked[n..] + [C.Envelope(r, rawLen, false)]
    requires NoGap(log, mark, shed', C.Records(ag.window.unacked)[n..] + [r])
    requires Covered(log, mark, shed', ag.read[r.source := r.offset], C.Records(ag.window.unacked)[n..] + [r])
    requires Covered(log, mark, shed', checkpoint', [])
    requires Bounded(log, ag.read[r.source := r.offset]) && Bounded(log, checkpoint')
    ensures AgentOk(log, mark, received, shed', ag.(read := ag.read[r.source := r.offset], window := w', checkpoint := checkpoint'))
  {
    assert C.Records(w'.unacked) == C.Records(ag.window.unacked)[n..] + [r];
    if ag.live { SentWithout(received, ag.window.unacked, w'.unacked, ag.sessions[|ag.sessions| - 1].data, n); }
    SessionsOkWhenMarksGrow(log, mark, received, shed, mark, received, shed', ag.sessions);
  }

  lemma SentWithout(received: Marks, es: seq<C.Envelope>, es': seq<C.Envelope>, data: seq<Record>, n: nat)
    requires SentIsKnown(received, es, data) && n <= |es|
    requires |es'| == |es| - n + 1 && !es'[|es'| - 1].sent
    requires forall j :: 0 <= j < |es'| - 1 ==> es'[j] == es[j + n]
    ensures SentIsKnown(received, es', data)
  {
  }

  /** What a flush appends to the stream continues it without a gap. */
  lemma {:induction false} NoGapWithBatch(log: Log, mark: Marks, received: Marks, shed: set<Record>, es: seq<C.Envelope>, data: seq<Record>, lo: nat, hi: nat)
    requires NoGap(log, mark, shed, C.Records(es)) && NoGap(log, received, shed, data)
    requires Below(mark, received) && SentIsKnown(received, es, data)
    requires lo <= hi <= |es| && forall j :: 0 <= j < |es| ==> es[j].sent == (j < lo)
    requires forall q :: InLog(log, q) ==> q.offset > 0
    ensures NoGap(log, received, shed, data + C.Records(es[lo..hi]))
    decreases hi
  {
    hide NoGap, Preceded, InLog, Below, SentIsKnown;
    if lo == hi {
      assert data + C.Records(es[lo..hi]) == data;
    } else {
      NoGapWithBatch(log, mark, received, shed, es, data, lo, hi - 1);
      var t := data + C.Records(es[lo..hi - 1]);
      NextToSend(log, mark, received, shed, es, data, lo, hi - 1);
      NoGapConcat(log, received, shed, t, es[hi - 1].rec);
      assert data + C.Records(es[lo..hi]) == t + [es[hi - 1].rec];
    }
  }

  /** Whatever precedes the next record to send was sent, or need not be. */
  lemma NextToSend(log: Log, mark: Marks, received: Marks, shed: set<Record>, es: seq<C.Envelope>, data: seq<Record>, lo: nat, m: nat)
    requires NoGap(log, mark, shed, C.Records(es)) && Below(mark, received) && SentIsKnown(received, es, data)
    requires lo <= m < |es| && forall j :: 0 <= j < |es| ==> es[j].sent == (j < lo)
    requires forall q :: InLog(log, q) ==> q.offset > 0
    ensures InLog(log, es[m].rec) && Preceded(log, received, shed, data + C.Records(es[lo..m]), es[m].rec)
  {
    var rs, t := C.Records(es), data + C.Records(es[lo..m]);
    assert rs[m] == es[m].rec && Preceded(log, mark, shed, rs[..m], es[m].rec);
    forall q | q in rs[..m] ensures q.offset <= At(received, q.source) || q in t {
      var j :| 0 <= j < m && rs[j] == q;
      if j >= lo { assert C.Records(es[lo..m])[j - lo] == q; }
    }
  }

  /** A flush marks the envelopes from `lo` to `hi` sent, and sends their records. */
  lemma FlushedWindow(w: C.Window, caps: C.Caps) returns (lo: nat, hi: nat)
    requires C.WindowOk(w)
    ensures var es, es' := w.unacked, C.Flushed(w, caps).unacked;
      && lo <= hi <= |es| == |es'| && C.WindowOk(C.Flushed(w, caps))
      && C.Records(es') == C.Records(es) && C.FlushedBatch(w, caps) == C.Records(es[lo..hi])
      && forall j :: 0 <= j < |es| ==> es'[j].rec == es[j].rec && es[j].sent == (j < lo) && es'[j].sent == (j < hi)
  {
    C.FlushSendsNext(w, caps);
    lo, hi := C.FirstUnsent(w.unacked), C.FirstUnsent(C.Flushed(w, caps).unacked);
    assert C.Records(C.Flushed(w, caps).unacked) == C.Records(w.unacked);
  }

  lemma FlushKeeps(log: Log, mark: Marks, received: Marks, shed: set<Record>, ag: Agent, caps: C.Caps)
    requires LogOk(log) && AgentOk(log, mark, received, shed, ag) && ag.live && Below(mark, received)
    ensures AgentOk(log, mark, received, shed, AfterFlush(ag, caps))
  {
    hide C.Flushed, C.FlushedBatch, C.WindowOk, C.Records, NoGap, Covered, Bounded, SentIsKnown, LogOk, InLog, Below;
    var ag' := AfterFlush(ag, caps);
    var es, es' := ag.window.unacked, ag'.window.unacked;
    var last := |ag.sessions| - 1;
    var lo, hi := FlushedWindow(ag.window, caps);
    var data, data' := ag.sessions[last].data, ag'.sessions[last].data;
    assert SessionOk(log, mark, received, shed, ag.sessions[last]);
    forall q | InLog(log, q) ensures q.offset > 0 { WithinEnd(log, q); }
    NoGapWithBatch(log, mark, received, shed, es, data, lo, hi);
    SentAfterFlush(received, es, es', data, data', lo, hi);
    forall k | 0 <= k < |ag'.sessions| ensures SessionOk(log, mark, received, shed, ag'.sessions[k]) {
      assert SessionOk(log, mark, received, shed, ag.sessions[k]);
    }
  }

  lemma SentAfterFlush(received: Marks, es: seq<C.Envelope>, es': seq<C.Envelope>, data: seq<Record>, data': seq<Record>, lo: nat, hi: nat)
    requires SentIsKnown(received, es, data) && lo <= hi <= |es| == |es'|
    requires data' == data + C.Records(es[lo..hi])
    requires forall j :: 0 <= j < |es| ==> es'[j].rec == es[j].rec && es[j].sent == (j < lo) && es'[j].sent == (j < hi)
    ensures SentIsKnown(received, es', data')
  {
    forall j | 0 <= j < |es'| && es'[j].sent
      ensures es'[j].rec.offset <= At(received, es'[j].rec.source) || es'[j].rec in data'
    {
      if lo <= j { assert C.Records(es[lo..hi])[j - lo] == es[j].rec; }
    }
  }

  lemma ConnectKeeps(st: State, a: nat, cfg: Config)
    requires Enabled(st, Connect(a), cfg)
    requires AgentOk(st.log, Mark(st), Received(st), st.shed, st.agents[a])
    ensures AgentOk(st.log, Mark(st), Received(st), st.shed, Apply(st, Connect(a), cfg).agents[a])
  {
    var ag, ag' := st.agents[a], Apply(st, Connect(a), cfg).agents[a];
    C.WindowOkStep(ag.window, C.Reconnect, cfg.caps);
    assert C.Records(ag'.window.unacked) == C.Records(ag.window.unacked);
  }

  /** A session that is not live may carry less; a live one may change its acks. */
  lemma SessionKeeps(log: Log, mark: Marks, received: Marks, shed: set<Record>, ag: Agent, k: nat, s: Session)
    requires k < |ag.sessions| && AgentOk(log, mark, received, shed, ag)
    requires ag.live && k == |ag.sessions| - 1 ==> s.data == ag.sessions[k].data
    requires SessionOk(log, mark, received, shed, s)
    ensures AgentOk(log, mark, received, shed, WithSession(ag, k, s))
  {
  }

  lemma CutKeeps(log: Log, mark: Marks, received: Marks, shed: set<Record>, s: Session, keep: nat)
    requires SessionOk(log, mark, received, shed, s) && keep <= |s.data|
    ensures SessionOk(log, mark, received, shed, s.(data := s.data[..keep]))
  {
    NoGapPrefix(log, received, shed, s.data, keep);
  }

  lemma SendAckKeeps(log: Log, mark: Marks, received: Marks, shed: set<Record>, s: Session, committed: Marks)
    requires SessionOk(log, mark, received, shed, s) && Below(committed, mark)
    ensures SessionOk(log, mark, received, shed, s.(acks := s.acks + [BuildAck(s.seen, committed)]))
  {
  }

  lemma LoseAckKeeps(log: Log, mark: Marks, received: Marks, shed: set<Record>, s: Session)
    requires SessionOk(log, mark, received, shed, s) && s.acks != []
    ensures SessionOk(log, mark, received, shed, s.(acks := s.acks[1..]))
  {
    forall j | 0 <= j < |s.acks[1..]| ensures Below(s.acks[1..][j], mark) {
      assert Below(s.acks[j + 1], mark);
    }
  }

  lemma KeptOrAcked(es: seq<C.Envelope>, ack: Marks, q: Record)
    requires q in C.Records(es)
    ensures q in C.Records(C.Kept(es, ack)) || (q.source in ack && q.offset <= ack[q.source])
  {
    var i :| 0 <= i < |es| && C.Records(es)[i] == q;
    C.KeptIsFilter(es, ack);
    if !C.IsAcked(es[i], ack) {
      assert es[i] in es;
      var j :| 0 <= j < |C.Kept(es, ack)| && C.Kept(es, ack)[j] == es[i];
      assert C.Records(C.Kept(es, ack))[j] == q;
    }
  }

  /** Trimming acked records leaves no gap: what goes is at or below the mark. */
  lemma {:induction false} KeptNoGap(log: Log, mark: Marks, shed: set<Record>, es: seq<C.Envelope>, ack: Marks)
    requires NoGap(log, mark, shed, C.Records(es)) && Below(ack, mark)
    ensures NoGap(log, mark, shed, C.Records(C.Kept(es, ack)))
  {
    if es == [] {
    } else {
      var n := |es| - 1;
      var front, rs := es[..n], C.Records(es);
      assert C.Records(front) == rs[..n];
      NoGapPrefix(log, mark, shed, rs, n);
      KeptNoGap(log, mark, shed, front, ack);
      if C.IsAcked(es[n], ack) {
        assert C.Kept(es, ack) == C.Kept(front, ack);
      } else {
        var kept := C.Records(C.Kept(front, ack));
        assert Preceded(log, mark, shed, rs[..n], rs[n]);
        forall q | q in rs[..n] ensures q.offset <= At(mark, q.source) || q in kept {
          KeptOrAcked(front, ack, q);
        }
        NoGapConcat(log, mark, shed, kept, rs[n]);
        assert C.Records(C.Kept(es, ack)) == kept + [rs[n]];
      }
    }
  }

  lemma ApplyAckKeeps(log: Log, mark: Marks, received: Marks, shed: set<Record>, ag: Agent, k: nat)
    requires LogOk(log) && AgentOk(log, mark, received, shed, ag) && Bounded(log, mark)
    requires k < |ag.sessions| && |ag.sessions[k].acks| > 0
    ensures AgentOk(log, mark, received, shed, AfterAck(ag, k))
  {
    var s := ag.sessions[k];
    var ack := s.acks[0];
    assert SessionOk(log, mark, received, shed, s) && Below(ack, mark);
    LoseAckKeeps(log, mark, received, shed, s);
    SessionKeeps(log, mark, received, shed, ag, k, s.(acks := s.acks[1..]));
    AckKeeps(log, mark, received, shed, WithSession(ag, k, s.(acks := s.acks[1..])), ack);
  }

  lemma AckKeeps(log: Log, mark: Marks, received: Marks, shed: set<Record>, ag: Agent, ack: Marks)
    requires LogOk(log) && AgentOk(log, mark, received, shed, ag) && Bounded(log, mark) && Below(ack, mark)
    ensures AgentOk(log, mark, received, shed, ag.(window := C.AckApplied(ag.window, ack), checkpoint := MergeMax(ag.checkpoint, ack)))
  {
    hide LogOk, MergeMax, NoGap, SessionsOk, C.Kept;
    var es, es' := ag.window.unacked, C.Kept(ag.window.unacked, ack);
    C.WindowOkStep(ag.window, C.Ack(ack), C.Caps(0, 0, 0));
    KeptNoGap(log, mark, shed, es, ack);
    forall q | InLog(log, q) && q.offset <= At(ag.read, q.source)
      ensures q.offset <= At(mark, q.source) || q in shed || q in C.Records(es')
    {
      if q in C.Records(es) { KeptOrAcked(es, ack, q); }
    }
    if ag.live { SentAfterAck(received, es, ack, ag.sessions[|ag.sessions| - 1].data); }
    AckedCheckpoint(log, mark, shed, ag.checkpoint, ack);
  }

  lemma AckedCheckpoint(log: Log, mark: Marks, shed: set<Record>, checkpoint: Marks, ack: Marks)
    requires LogOk(log) && Bounded(log, mark) && Below(ack, mark)
    requires Covered(log, mark, shed, checkpoint, []) && Bounded(log, checkpoint)
    ensures Covered(log, mark, shed, MergeMax(checkpoint, ack), []) && Bounded(log, MergeMax(checkpoint, ack))
  {
    var checkpoint' := MergeMax(checkpoint, ack);
    forall q | InLog(log, q) && q.offset <= At(checkpoint', q.source)
      ensures q.offset <= At(mark, q.source) || q in shed
    {
      MergeMaxAt(checkpoint, ack, q.source);
      WithinEnd(log, q);
    }
    forall s | s in checkpoint' ensures checkpoint'[s] <= End(log, s) {
      MergeMaxAt(checkpoint, ack, s);
      EndNotNegative(log, s);
    }
  }

  lemma EndNotNegative(log: Log, s: string)
    requires LogOk(log)
    ensures End(log, s) >= 0
  {
  }

  lemma SentAfterAck(received: Marks, es: seq<C.Envelope>, ack: Marks, data: seq<Record>)
    requires SentIsKnown(received, es, data)
    ensures SentIsKnown(received, C.Kept(es, ack), data)
  {
    var es' := C.Kept(es, ack);
    C.KeptIsFilter(es, ack);
    forall j | 0 <= j < |es'| && es'[j].sent
      ensures es'[j].rec.offset <= At(received, es'[j].rec.source) || es'[j].rec in data
    {
      assert es'[j] in es;
      var i :| 0 <= i < |es| && es[i] == es'[j];
    }
  }

  lemma AgentCrashKeeps(st: State, a: nat, cfg: Config)
    requires Enabled(st, AgentCrash(a), cfg)
    requires AgentOk(st.log, Mark(st), Received(st), st.shed, st.agents[a])
    ensures AgentOk(st.log, Mark(st), Received(st), st.shed, Apply(st, AgentCrash(a), cfg).agents[a])
  {
    var ag, ag' := st.agents[a], Apply(st, AgentCrash(a), cfg).agents[a];
    forall k | 0 <= k < |ag'.sessions| ensures SessionOk(st.log, Mark(st), Received(st), st.shed, ag'.sessions[k]) {
      assert SessionOk(st.log, Mark(st), Received(st), st.shed, ag.sessions[k]);
    }
    assert C.Records(ag'.window.unacked) == [];
  }

  /** Delivering the first record of a session, once it counts as received. */
  lemma DeliverKeeps(log: Log, mark: Marks, received: Marks, received': Marks, shed: set<Record>, ag: Agent, k: nat, seen: set<string>)
    requires AgentOk(log, mark, received, shed, ag) && Grows(received, received')
    requires k < |ag.sessions| && ag.sessions[k].data != []
    requires ag.sessions[k].data[0].offset <= At(received', ag.sessions[k].data[0].source)
    ensures
      var s := ag.sessions[k];
      AgentOk(log, mark, received', shed, WithSession(ag, k, s.(data := s.data[1..], seen := seen)))
  {
    hide C.WindowOk, C.Records, Covered, Bounded, Below, NoGap, InLog, Preceded;
    var s := ag.sessions[k];
    assert SessionOk(log, mark, received, shed, s);
    AgentOkWhenMarksGrow(log, mark, received, shed, mark, received', shed, ag);
    NoGapWithoutFirst(log, received, shed, received', shed, s.data);
    var s' := s.(data := s.data[1..], seen := seen);
    assert SessionOk(log, mark, received', shed, s');
    assert s.data == [s.data[0]] + s'.data;
  }
}
