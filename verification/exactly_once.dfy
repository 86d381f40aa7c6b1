/**
  Exactly once: no record occurs twice in a run, however seals overlap, exactly
  when no seal reports failure after its sidecar was stored.
 */
module ExactlyOnce {
  import opened Model
  import opened Offsets
  import opened Delivery
  import opened DeliverySteps
  import opened DeliverySound
  import S = Spooling
  import C = IngestClient

  ghost function DurableBag(s3: ObjectStore): multiset<Record>
    decreases |s3.sidecars|
  {
    if s3.sidecars == [] then multiset{}
    else
      var last := s3.sidecars[|s3.sidecars| - 1].id;
      DurableBag(s3.(sidecars := s3.sidecars[..|s3.sidecars| - 1]))
      + (if last in s3.bodies then multiset(s3.bodies[last]) else multiset{})
  }

  /** A batch in flight, while no sidecar makes it discoverable. */
  function OwnBag(f: Flight): multiset<Record> {
    if f.phase.Discoverable? then multiset{} else multiset(f.batch)
  }

  function FlightBag(fs: seq<Flight>): multiset<Record> {
    if fs == [] then multiset{} else OwnBag(fs[0]) + FlightBag(fs[1..])
  }

  /** Everything discoverable in S3, in flight, or in the open buffer. */
  ghost function Bag(st: State): multiset<Record> {
    DurableBag(st.s3) + if st.manager.Up? then FlightBag(st.manager.flights) + multiset(st.manager.spool.buf) else multiset{}
  }

  ghost predicate NoDuplicates(st: State) {
    forall r :: Bag(st)[r] <= 1
  }

  /** A seal that reports failure although its sidecar is stored. */
  ghost predicate FailsLate(st: State, step: Step) {
    step.FailSeal? && st.manager.Up? && step.k < |st.manager.flights| && st.manager.flights[step.k].phase.Discoverable?
  }

  lemma {:induction false} DurableBagIsDurable(s3: ObjectStore, r: Record)
    ensures r in DurableBag(s3) <==> Durable(s3, r)
    decreases |s3.sidecars|
  {
    var n := |s3.sidecars|;
    if n > 0 {
      var front := s3.(sidecars := s3.sidecars[..n - 1]);
      DurableBagIsDurable(front, r);
      if Durable(s3, r) {
        var i :| 0 <= i < n && s3.sidecars[i].id in s3.bodies && r in s3.bodies[s3.sidecars[i].id];
        if i < n - 1 {
          assert front.sidecars[i] == s3.sidecars[i];
        } else {
          assert r in multiset(s3.bodies[s3.sidecars[i].id]);
        }
      }
      if Durable(front, r) {
        var i :| 0 <= i < n - 1 && front.sidecars[i].id in front.bodies && r in front.bodies[front.sidecars[i].id];
        assert s3.sidecars[i] == front.sidecars[i];
      }
    }
  }

  lemma {:induction false} DurableBagWithBody(s3: ObjectStore, id: string, batch: seq<Record>)
    requires forall i :: 0 <= i < |s3.sidecars| ==> s3.sidecars[i].id != id
    ensures DurableBag(s3.(bodies := s3.bodies[id := batch])) == DurableBag(s3)
    decreases |s3.sidecars|
  {
    if s3.sidecars != [] {
      DurableBagWithBody(s3.(sidecars := s3.sidecars[..|s3.sidecars| - 1]), id, batch);
    }
  }

  lemma {:induction false} FlightBagWithout(fs: seq<Flight>, k: nat)
    requires k < |fs|
    ensures FlightBag(fs) == OwnBag(fs[k]) + FlightBag(WithoutFlight(fs, k))
  {
    hide OwnBag;
    if k == 0 {
      assert WithoutFlight(fs, 0) == fs[1..];
    } else {
      FlightBagWithout(fs[1..], k - 1);
      assert WithoutFlight(fs, k)[1..] == WithoutFlight(fs[1..], k - 1);
    }
  }

  lemma FlightBagMoves(fs: seq<Flight>, k: nat, f: Flight)
    requires k < |fs|
    ensures FlightBag(fs) == OwnBag(fs[k]) + FlightBag(WithoutFlight(fs, k))
    ensures FlightBag(fs[k := f]) == OwnBag(f) + FlightBag(WithoutFlight(fs, k))
  {
    FlightBagWithout(fs, k);
    FlightBagWithout(fs[k := f], k);
    assert WithoutFlight(fs[k := f], k) == WithoutFlight(fs, k);
  }

  lemma {:induction false} FlightBagSnoc(fs: seq<Flight>, f: Flight)
    ensures FlightBag(fs + [f]) == FlightBag(fs) + OwnBag(f)
  {
    FlightBagWithout(fs + [f], |fs|);
    assert WithoutFlight(fs + [f], |fs|) == fs;
  }

  lemma {:induction false} BaggedInFlight(fs: seq<Flight>, r: Record)
    requires r in FlightBag(fs)
    ensures exists k :: 0 <= k < |fs| && r in fs[k].batch
  {
    if r in OwnBag(fs[0]) {
      assert r in fs[0].batch;
    } else {
      BaggedInFlight(fs[1..], r);
      var k :| 0 <= k < |fs[1..]| && r in fs[1..][k].batch;
      assert fs[k + 1] == fs[1..][k];
    }
  }

  lemma HeldIsBagged(st: State, r: Record)
    requires r in Bag(st)
    ensures Held(st, r)
  {
    hide DurableBag, Durable, FlightBag;
    DurableBagIsDurable(st.s3, r);
    if r !in DurableBag(st.s3) {
      if r in FlightBag(st.manager.flights) {
        BaggedInFlight(st.manager.flights, r);
      } else {
        assert r in multiset(st.manager.spool.buf);
      }
    }
  }

  /** Every step but a late failure keeps records from doubling. */
  lemma BagStep(st: State, step: Step, cfg: Config)
    requires Sound(st) && Enabled(st, step, cfg) && NoDuplicates(st)
    requires !FailsLate(st, step)
    ensures NoDuplicates(Apply(st, step, cfg))
  {
    hide LogOk, StoreOk, ManagerOk, HeldBelow, AgentsInLog, DurableBag, FlightBag, Bag, C.Enqueued, C.Flushed, C.FlushedBatch, C.AckApplied, C.Unsent, C.Shed, Watermarks, MergeMax;
    match step {
      case Deliver(a, k) => BagDeliver(st, a, k, cfg);
      case BeginSeal(batch, id) => BagBegin(st, batch, id, cfg);
      case PutBody(k) => BagPutBody(st, k, cfg);
      case PutSidecar(k) => BagPutSidecar(st, k, cfg);
      case FinishSeal(k) => BagFinish(st, k, cfg);
      case FailSeal(k) => BagFail(st, k, cfg);
      case ManagerCrash => BagCrash(st, cfg);
      case ManagerRecover => BagRecover(st, cfg);
      case _ => BagOfSame(st, Apply(st, step, cfg));
    }
  }

  lemma BagOfSame(st: State, st': State)
    requires st'.s3 == st.s3 && st'.manager == st.manager
    ensures Bag(st') == Bag(st)
  {
  }

  lemma BagCrash(st: State, cfg: Config)
    requires st.manager.Up?
    ensures Bag(Apply(st, ManagerCrash, cfg)) <= Bag(st)
  {
  }

  lemma BagRecover(st: State, cfg: Config)
    requires st.manager.Down?
    ensures Bag(Apply(st, ManagerRecover, cfg)) == Bag(st)
  {
    assert FlightBag([]) == multiset{};
  }

  lemma BagBegin(st: State, batch: seq<Record>, id: string, cfg: Config)
    requires Enabled(st, BeginSeal(batch, id), cfg)
    ensures Bag(Apply(st, BeginSeal(batch, id), cfg)) == Bag(st)
  {
    hide DurableBag, FlightBag, Unused;
    FlightBagSnoc(st.manager.flights, Flight(batch, id, Writing));
  }

  lemma BagPutBody(st: State, k: nat, cfg: Config)
    requires ManagerOk(st) && Enabled(st, PutBody(k), cfg)
    ensures Bag(Apply(st, PutBody(k), cfg)) == Bag(st)
  {
    hide DurableBag, FlightBag, WithoutFlight, FlightOk, Below;
    var f := st.manager.flights[k];
    BodyIsFresh(st, k);
    FlightBagMoves(st.manager.flights, k, f.(phase := BodyStored));
    DurableBagWithBody(st.s3, f.id, f.batch);
  }

  lemma BagPutSidecar(st: State, k: nat, cfg: Config)
    requires ManagerOk(st) && Enabled(st, PutSidecar(k), cfg)
    ensures Bag(Apply(st, PutSidecar(k), cfg)) == Bag(st)
  {
    hide DurableBag, FlightBag, WithoutFlight, FlightOk, Below, MaxOff;
    var f := st.manager.flights[k];
    assert FlightOk(st.s3, f);
    StoredBody(st.s3, f);
    FlightBagMoves(st.manager.flights, k, f.(phase := Discoverable));
    DurableBagSnoc(st.s3, Sidecar(f.id, MaxOff(f.batch)));
  }

  lemma DurableBagSnoc(s3: ObjectStore, car: Sidecar)
    requires car.id in s3.bodies
    ensures DurableBag(s3.(sidecars := s3.sidecars + [car])) == DurableBag(s3) + multiset(s3.bodies[car.id])
  {
    var s3' := s3.(sidecars := s3.sidecars + [car]);
    assert s3'.sidecars[..|s3.sidecars|] == s3.sidecars;
    assert s3'.(sidecars := s3.sidecars) == s3;
  }

  lemma BagFinish(st: State, k: nat, cfg: Config)
    requires Enabled(st, FinishSeal(k), cfg)
    ensures Bag(Apply(st, FinishSeal(k), cfg)) == Bag(st)
  {
    hide DurableBag, FlightBag, WithoutFlight, MaxOff, MergeMax;
    FlightBagWithout(st.manager.flights, k);
  }

  lemma BagFail(st: State, k: nat, cfg: Config)
    requires Enabled(st, FailSeal(k), cfg)
    ensures Bag(Apply(st, FailSeal(k), cfg))
         == Bag(st) + if FailsLate(st, FailSeal(k)) then multiset(st.manager.flights[k].batch) else multiset{}
  {
    hide DurableBag, FlightBag, WithoutFlight;
    var f, st' := st.manager.flights[k], Apply(st, FailSeal(k), cfg);
    FlightBagWithout(st.manager.flights, k);
    assert st'.manager.spool.buf == f.batch + st.manager.spool.buf;
  }

  lemma BagDeliver(st: State, a: nat, k: nat, cfg: Config)
    requires Sound(st) && Enabled(st, Deliver(a, k), cfg) && NoDuplicates(st)
    ensures NoDuplicates(Apply(st, Deliver(a, k), cfg))
  {
    hide DurableBag, FlightBag, InLog, Held, AgentsInLog, StoreOk, ManagerOk, LogOk, Watermarks;
    var st' := Apply(st, Deliver(a, k), cfg);
    var r := st.agents[a].sessions[k].data[0];
    DeliveredInLog(st, a, k, cfg);
    if !S.IsDuplicate(st.manager.spool, r) {
      if r in Bag(st) { HeldIsBagged(st, r); }
      assert Bag(st') == Bag(st) + multiset{r};
    } else {
      BagOfSame(st, st');
    }
  }

  /** A late failure doubles its whole batch. */
  lemma LateFailureDoubles(st: State, step: Step, cfg: Config)
    requires Sound(st) && Enabled(st, step, cfg) && FailsLate(st, step)
    ensures st.manager.flights[step.k].batch != []
    ensures forall r :: r in st.manager.flights[step.k].batch ==> Bag(Apply(st, step, cfg))[r] >= 2
  {
    hide DurableBag, FlightBag, WithoutFlight, Apply, Enabled, LogOk, HeldBelow, AgentsInLog, StoreOk, Durable;
    var f := st.manager.flights[step.k];
    assert FlightOk(st.s3, f);
    DiscoverableIsDurable(st.s3, f);
    BagFail(st, step.k, cfg);
    forall r | r in f.batch ensures Bag(st)[r] >= 1 && multiset(f.batch)[r] >= 1 {
      DurableBagIsDurable(st.s3, r);
    }
  }

  lemma {:induction false} NoDuplicatesYet(states: seq<State>, steps: seq<Step>, cfg: Config, i: nat)
    requires IsRun(states, steps, cfg) && i < |states|
    requires forall j :: 0 <= j < i ==> !FailsLate(states[j], steps[j])
    ensures NoDuplicates(states[i])
    decreases i
  {
    hide Sound, Apply, NoDuplicates, Initial, FailsLate;
    if i == 0 {
      NothingAtFirst(states[0]);
    } else {
      NoDuplicatesYet(states, steps, cfg, i - 1);
      AlwaysSound(states, steps, cfg, i - 1);
      assert !FailsLate(states[i - 1], steps[i - 1]);
      BagStep(states[i - 1], steps[i - 1], cfg);
    }
  }

  lemma NothingAtFirst(st: State)
    requires Initial(st)
    ensures NoDuplicates(st)
  {
  }

  /** Exactly once: no record occurs twice in any state of a run, exactly when
      no seal of the run reports failure after its sidecar was stored. */
  lemma ExactlyOnceIff(states: seq<State>, steps: seq<Step>, cfg: Config)
    requires IsRun(states, steps, cfg)
    ensures (forall i :: 0 <= i < |states| ==> NoDuplicates(states[i]))
        <==> (forall i :: 0 <= i < |steps| ==> !FailsLate(states[i], steps[i]))
  {
    hide Sound, Apply, Initial, Enabled, Bag;
    if forall i :: 0 <= i < |steps| ==> !FailsLate(states[i], steps[i]) {
      forall i | 0 <= i < |states| ensures NoDuplicates(states[i]) {
        NoDuplicatesYet(states, steps, cfg, i);
      }
    } else {
      var i :| 0 <= i < |steps| && FailsLate(states[i], steps[i]);
      AlwaysSound(states, steps, cfg, i);
      LateFailureDoubles(states[i], steps[i], cfg);
      assert states[i + 1] == Apply(states[i], steps[i], cfg);
      assert Bag(states[i + 1])[states[i].manager.flights[steps[i].k].batch[0]] >= 2;
    }
  }
}
