/**
  What the steps of the manager do to S3, to the seals in flight and to what the
  manager and S3 hold between them, in whatever order sidecars are stored.
 */
module DeliverySteps {
  import opened Model
  import opened Offsets
  import opened Delivery

  lemma SameMembers(a: seq<Record>, b: seq<Record>)
    requires multiset(a) == multiset(b)
    ensures forall x :: x in a <==> x in b
  {
    forall x ensures x in a <==> x in b {
      assert x in a <==> x in multiset(a);
      assert x in b <==> x in multiset(b);
    }
  }

  lemma BodyFlights(s3: ObjectStore, s3': ObjectStore, fs: seq<Flight>, k: nat)
    requires FlightsOk(s3, fs) && k < |fs| && fs[k].phase.Writing?
    requires s3' == s3.(bodies := s3.bodies[fs[k].id := fs[k].batch])
    ensures FlightsOk(s3', fs[k := fs[k].(phase := BodyStored)])
  {
    var fs' := fs[k := fs[k].(phase := BodyStored)];
    forall j | 0 <= j < |fs'| ensures FlightOk(s3', fs'[j]) {
      assert FlightOk(s3, fs[j]);
      assert HasSidecar(s3', fs[j].id) <==> HasSidecar(s3, fs[j].id);
    }
  }

  lemma DurableWithBody(s3: ObjectStore, s3': ObjectStore, f: Flight)
    requires s3'.sidecars == s3.sidecars && s3'.bodies == s3.bodies[f.id := f.batch]
    requires forall i :: 0 <= i < |s3.sidecars| ==> s3.sidecars[i].id != f.id
    ensures forall x :: Durable(s3', x) <==> Durable(s3, x)
  {
  }

  /** A flight that only moved to its next phase holds what it held. */
  lemma FlightMoves(st: State, st': State, k: nat)
    requires st.manager.Up? && st'.manager.Up? && k < |st.manager.flights| == |st'.manager.flights|
    requires st'.manager.flights == st.manager.flights[k := st'.manager.flights[k]]
    requires st'.manager.flights[k].batch == st.manager.flights[k].batch && st'.manager.spool == st.manager.spool
    requires forall x :: Durable(st'.s3, x) <==> Durable(st.s3, x) || (x in st.manager.flights[k].batch && Durable(st'.s3, x))
    ensures forall x :: Held(st', x) <==> Held(st, x)
  {
    hide Durable;
    var fs, fs' := st.manager.flights, st'.manager.flights;
    assert forall j :: 0 <= j < |fs| ==> fs'[j].batch == fs[j].batch;
    forall x ensures InFlight(st.manager, x) <==> InFlight(st'.manager, x) {
      if InFlight(st.manager, x) {
        var j :| 0 <= j < |fs| && x in fs[j].batch;
        assert x in fs'[j].batch;
      }
    }
    forall x | x in fs[k].batch ensures InFlight(st.manager, x) {}
  }

  /** What storing a sidecar does to S3 and the flights. */
  lemma SidecarStored(st: State, st': State, k: nat)
    requires StoreOk(st.s3) && ManagerOk(st) && st.manager.Up? && k < |st.manager.flights| && st.manager.flights[k].phase.BodyStored?
    requires var f := st.manager.flights[k]; st' == st.(manager := st.manager.(flights := st.manager.flights[k := f.(phase := Discoverable)]),
      s3 := st.s3.(sidecars := st.s3.sidecars + [Sidecar(f.id, MaxOff(f.batch))]))
    ensures var f := st.manager.flights[k];
      && FlightsOk(st'.s3, st'.manager.flights) && StoreOk(st'.s3)
      && Mark(st') == MergeMax(Mark(st), MaxOff(f.batch))
      && (forall x :: Durable(st'.s3, x) <==> Durable(st.s3, x) || x in f.batch)
  {
    hide Durable, HasSidecar, MergeMax, MaxOff, FlightOk;
    var f, n := st.manager.flights[k], |st.s3.sidecars|;
    assert FlightOk(st.s3, f);
    assert st'.s3.sidecars[n] == Sidecar(f.id, MaxOff(f.batch)) && st'.s3.sidecars[..n] == st.s3.sidecars;
    SidecarFlight(st.s3, st'.s3, f);
    forall j | 0 <= j < |st.manager.flights| && j != k ensures FlightOk(st'.s3, st.manager.flights[j]) {
      OtherFlight(st.s3, st'.s3, f, st.manager.flights[j]);
    }
    StoredBody(st.s3, f);
    DurableWithSidecar(st, st', f);
  }

  lemma StoredBody(s3: ObjectStore, f: Flight)
    requires FlightOk(s3, f) && f.phase.BodyStored?
    ensures f.id in s3.bodies && s3.bodies[f.id] == f.batch
  {
  }

  lemma OtherFlight(s3: ObjectStore, s3': ObjectStore, f: Flight, g: Flight)
    requires FlightOk(s3, g) && g.id != f.id && s3' == s3.(sidecars := s3.sidecars + [Sidecar(f.id, MaxOff(f.batch))])
    ensures FlightOk(s3', g)
  {
    assert HasSidecar(s3', g.id) <==> HasSidecar(s3, g.id) by {
      if HasSidecar(s3, g.id) {
        var i :| 0 <= i < |s3.sidecars| && s3.sidecars[i].id == g.id;
        assert s3'.sidecars[i].id == g.id;
      }
      if HasSidecar(s3', g.id) {
        var i :| 0 <= i < |s3'.sidecars| && s3'.sidecars[i].id == g.id;
        assert i < |s3.sidecars| && s3.sidecars[i].id == g.id;
      }
    }
  }

  lemma SidecarFlight(s3: ObjectStore, s3': ObjectStore, f: Flight)
    requires FlightOk(s3, f) && f.phase.BodyStored? && StoreOk(s3)
    requires s3' == s3.(sidecars := s3.sidecars + [Sidecar(f.id, MaxOff(f.batch))])
    ensures FlightOk(s3', f.(phase := Discoverable)) && StoreOk(s3')
  {
    assert s3'.sidecars[|s3.sidecars|].id == f.id;
  }

  lemma DurableWithSidecar(st: State, st': State, f: Flight)
    requires f.id in st.s3.bodies && st.s3.bodies[f.id] == f.batch && st'.s3.bodies == st.s3.bodies
    requires |st'.s3.sidecars| == |st.s3.sidecars| + 1 && st'.s3.sidecars[..|st.s3.sidecars|] == st.s3.sidecars
    requires st'.s3.sidecars[|st.s3.sidecars|].id == f.id
    ensures forall x :: Durable(st'.s3, x) <==> Durable(st.s3, x) || x in f.batch
  {
    var n := |st.s3.sidecars|;
    forall x ensures Durable(st'.s3, x) <==> Durable(st.s3, x) || x in f.batch {
      if Durable(st.s3, x) {
        var i :| 0 <= i < n && st.s3.sidecars[i].id in st.s3.bodies && x in st.s3.bodies[st.s3.sidecars[i].id];
        assert st'.s3.sidecars[i] == st.s3.sidecars[i];
      }
      if Durable(st'.s3, x) && x !in f.batch {
        var i :| 0 <= i < n + 1 && st'.s3.sidecars[i].id in st'.s3.bodies && x in st'.s3.bodies[st'.s3.sidecars[i].id];
        assert i < n && st'.s3.sidecars[i] == st.s3.sidecars[i];
      }
    }
  }

  /** The batch of a discoverable flight is durable. */
  lemma DiscoverableIsDurable(s3: ObjectStore, f: Flight)
    requires FlightOk(s3, f) && f.phase.Discoverable?
    ensures forall x :: x in f.batch ==> Durable(s3, x)
  {
    var i :| 0 <= i < |s3.sidecars| && s3.sidecars[i].id == f.id;
  }

  /** Taking a flight away takes its batch away and leaves the others as they are. */
  lemma FlightGone(s3: ObjectStore, fs: seq<Flight>, k: nat)
    requires FlightsOk(s3, fs) && k < |fs|
    ensures FlightsOk(s3, WithoutFlight(fs, k))
    ensures forall f :: f in fs <==> f in WithoutFlight(fs, k) || f == fs[k]
  {
    hide FlightOk;
    var rest := WithoutFlight(fs, k);
    assert forall j :: 0 <= j < |rest| ==> rest[j] == if j < k then fs[j] else fs[j + 1];
    assert fs == fs[..k] + [fs[k]] + fs[k + 1..];
  }

  lemma InSomeFlight(m: Manager, x: Record)
    ensures InFlight(m, x) <==> m.Up? && exists f :: f in m.flights && x in f.batch
  {
    if m.Up? && exists f :: f in m.flights && x in f.batch {
      var f :| f in m.flights && x in f.batch;
      var k :| 0 <= k < |m.flights| && m.flights[k] == f;
    }
  }

  lemma CommittedIsDurable(s3: ObjectStore, batch: seq<Record>, committed: map<string, int>)
    requires StoreOk(s3) && Below(committed, Watermarks(s3.sidecars))
    requires forall x :: x in batch ==> Durable(s3, x)
    ensures Below(MergeMax(committed, MaxOff(batch)), Watermarks(s3.sidecars))
  {
    MarkIsMax(s3);
    MaxOffIsMax(batch);
    var committed', mark := MergeMax(committed, MaxOff(batch)), Watermarks(s3.sidecars);
    forall s | s in committed' ensures committed'[s] <= At(mark, s) {
      MergeMaxAt(committed, MaxOff(batch), s);
      if s in MaxOff(batch) {
        var top :| top in batch && top.source == s && top.offset == MaxOff(batch)[s];
        assert Durable(s3, top);
      }
    }
  }

  lemma AcceptedHeld(st: State, st': State, r: Record)
    requires st.manager.Up? && st'.manager.Up? && st'.s3 == st.s3 && st'.manager.flights == st.manager.flights
    requires st'.manager.spool.buf == st.manager.spool.buf + [r]
    ensures forall x :: Held(st', x) <==> Held(st, x) || x == r
  {
    forall x ensures Buffered(st'.manager, x) <==> Buffered(st.manager, x) || x == r {
      assert x in [r] <==> x == r;
    }
    forall x ensures InFlight(st'.manager, x) <==> InFlight(st.manager, x) {}
  }

  lemma BodyIsFresh(st: State, k: nat)
    requires ManagerOk(st) && st.manager.Up? && k < |st.manager.flights| && st.manager.flights[k].phase.Writing?
    ensures forall i :: 0 <= i < |st.s3.sidecars| ==> st.s3.sidecars[i].id != st.manager.flights[k].id
  {
    assert FlightOk(st.s3, st.manager.flights[k]) && !HasSidecar(st.s3, st.manager.flights[k].id);
  }

  // ---- Each step of a seal ----

  /** A step inside the manager: the same records are held, nobody else notices. */
  ghost predicate HoldsOn(st: State, st': State) {
    && st.manager.Up? && st'.manager.Up?
    && st'.log == st.log && st'.agents == st.agents && st'.shed == st.shed
    && Received(st') == Received(st)
    && StoreOk(st'.s3) && ManagerOk(st')
    && (forall x :: Held(st', x) <==> Held(st, x))
  }

  lemma BeginSealHolds(st: State, batch: seq<Record>, id: string, cfg: Config)
    requires StoreOk(st.s3) && ManagerOk(st) && Enabled(st, BeginSeal(batch, id), cfg)
    ensures HoldsOn(st, Apply(st, BeginSeal(batch, id), cfg))
  {
    hide Durable, MergeMax, MaxOff, Watermarks, StoreOk;
    var st' := Apply(st, BeginSeal(batch, id), cfg);
    var fs := st.manager.flights;
    SameMembers(batch, st.manager.spool.buf);
    forall x ensures InFlight(st'.manager, x) <==> InFlight(st.manager, x) || x in batch {
      assert st'.manager.flights[|fs|].batch == batch;
      assert forall k :: 0 <= k < |fs| ==> st'.manager.flights[k] == fs[k];
    }
    assert |multiset(batch)| > 0;
  }

  lemma PutBodyHolds(st: State, k: nat, cfg: Config)
    requires StoreOk(st.s3) && ManagerOk(st) && Enabled(st, PutBody(k), cfg)
    ensures var st' := Apply(st, PutBody(k), cfg);
      HoldsOn(st, st') && (forall x :: Durable(st'.s3, x) <==> Durable(st.s3, x))
  {
    hide Durable, MaxOff, MergeMax, Watermarks, InFlight, Buffered, FlightsOk;
    var st' := Apply(st, PutBody(k), cfg);
    BodyIsFresh(st, k);
    DurableWithBody(st.s3, st'.s3, st.manager.flights[k]);
    FlightMoves(st, st', k);
    BodyFlights(st.s3, st'.s3, st.manager.flights, k);
  }

  lemma PutSidecarHolds(st: State, k: nat, cfg: Config)
    requires StoreOk(st.s3) && ManagerOk(st) && Enabled(st, PutSidecar(k), cfg)
    ensures var st', batch := Apply(st, PutSidecar(k), cfg), st.manager.flights[k].batch;
      && HoldsOn(st, st')
      && Mark(st') == MergeMax(Mark(st), MaxOff(batch)) && Grows(Mark(st), Mark(st'))
      && (forall x :: Durable(st'.s3, x) <==> Durable(st.s3, x) || x in batch)
  {
    hide Durable, HasSidecar, InFlight, Buffered, MergeMax, MaxOff, FlightsOk;
    var st' := Apply(st, PutSidecar(k), cfg);
    SidecarStored(st, st', k);
    FlightMoves(st, st', k);
    forall s ensures At(Mark(st), s) <= At(Mark(st'), s) {
      MergeMaxAt(Mark(st), MaxOff(st.manager.flights[k].batch), s);
    }
  }

  lemma FinishSealHolds(st: State, k: nat, cfg: Config)
    requires StoreOk(st.s3) && ManagerOk(st) && Enabled(st, FinishSeal(k), cfg)
    ensures HoldsOn(st, Apply(st, FinishSeal(k), cfg))
  {
    hide MergeMax, MaxOff, Watermarks, StoreOk, InFlight, WithoutFlight, Durable, FlightOk;
    var st' := Apply(st, FinishSeal(k), cfg);
    var f := st.manager.flights[k];
    DiscoverableIsDurable(st.s3, f);
    FlightGone(st.s3, st.manager.flights, k);
    forall x ensures Held(st', x) <==> Held(st, x) {
      InSomeFlight(st.manager, x);
      InSomeFlight(st'.manager, x);
    }
    CommittedIsDurable(st.s3, f.batch, st.manager.spool.committed);
  }

  lemma FailSealHolds(st: State, k: nat, cfg: Config)
    requires StoreOk(st.s3) && ManagerOk(st) && Enabled(st, FailSeal(k), cfg)
    ensures HoldsOn(st, Apply(st, FailSeal(k), cfg))
  {
    hide Durable, MergeMax, MaxOff, Watermarks, StoreOk, InFlight, WithoutFlight, FlightOk;
    var st' := Apply(st, FailSeal(k), cfg);
    assert st'.manager.spool.buf == st.manager.flights[k].batch + st.manager.spool.buf;
    FlightGone(st.s3, st.manager.flights, k);
    forall x ensures Held(st', x) <==> Held(st, x) {
      InSomeFlight(st.manager, x);
      InSomeFlight(st'.manager, x);
    }
  }
}
