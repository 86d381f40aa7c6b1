/**
  Live tail: the hub that fans accepted records out (internal/query/hub.go) and
  the follow query that replays history and then drains its feed
  (internal/manager/http.go:177-249).
 */
module Follow {
  import opened Model
  import opened RecordLists
  import opened Offsets
  import opened TimeOrder
  import opened Merge
  import Q = Query

  // ---- The hub ----

  /** A subscriber's channel; a closed one can still be drained. */
  datatype Chan = Chan(buf: seq<Record>, closed: bool)

  /** A nil expression matches everything. */
  predicate Wants(lib: Q.Library, expr: Option<Q.Node>, r: Record) {
    expr.None? || Q.Match(lib, expr.value, r)
  }

  /** One publication, seen by one subscriber: a full channel is closed. */
  function Offered(lib: Q.Library, expr: Option<Q.Node>, ch: Chan, r: Record, bufSize: nat): Chan {
    if !Wants(lib, expr, r) then ch
    else if |ch.buf| < bufSize then ch.(buf := ch.buf + [r])
    else ch.(closed := true)
  }

  /** The channels once those in `done` were offered r. */
  function OfferedTo(lib: Q.Library, bufSize: nat, r: Record, subs: map<nat, Option<Q.Node>>, chans: map<nat, Chan>, done: set<nat>)
    : map<nat, Chan>
  {
    map id | id in chans :: if id in done && id in subs then Offered(lib, subs[id], chans[id], r, bufSize) else chans[id]
  }

  /** The subscriptions not dropped by it. */
  function StillIn(lib: Q.Library, bufSize: nat, r: Record, subs: map<nat, Option<Q.Node>>, chans: map<nat, Chan>, done: set<nat>)
    : map<nat, Option<Q.Node>>
    requires subs.Keys <= chans.Keys
  {
    map id | id in subs && !(id in done && Offered(lib, subs[id], chans[id], r, bufSize).closed) :: subs[id]
  }

  /** No subscriber's channel is closed. */
  predicate AllOpen(subs: map<nat, Option<Q.Node>>, chans: map<nat, Chan>) {
    subs.Keys <= chans.Keys && forall id :: id in subs ==> !chans[id].closed
  }

  lemma NoneOffered(lib: Q.Library, bufSize: nat, r: Record, subs: map<nat, Option<Q.Node>>, chans: map<nat, Chan>)
    requires AllOpen(subs, chans)
    ensures OfferedTo(lib, bufSize, r, subs, chans, subs.Keys - subs.Keys) == chans
    ensures StillIn(lib, bufSize, r, subs, chans, subs.Keys - subs.Keys) == subs
  {
  }

  /** Offering r to one more subscriber. */
  lemma OfferOne(lib: Q.Library, bufSize: nat, r: Record, subs: map<nat, Option<Q.Node>>, chans: map<nat, Chan>, done: set<nat>, id: nat)
    requires AllOpen(subs, chans) && id in subs && id !in done
    ensures var chans', subs' := OfferedTo(lib, bufSize, r, subs, chans, done), StillIn(lib, bufSize, r, subs, chans, done);
      && id in chans' && chans'[id] == chans[id] && id in subs' && subs'[id] == subs[id]
      && OfferedTo(lib, bufSize, r, subs, chans, done + {id}) == chans'[id := Offered(lib, subs[id], chans[id], r, bufSize)]
      && StillIn(lib, bufSize, r, subs, chans, done + {id})
         == if Offered(lib, subs[id], chans[id], r, bufSize).closed then subs' - {id} else subs'
  {
  }

  class Hub {
    const lib: Q.Library
    const bufSize: nat
    var subs: map<nat, Option<Q.Node>>
    var chans: map<nat, Chan>
    var nextID: nat

    ghost predicate Valid()
      reads this
    {
      && bufSize > 0
      && subs.Keys <= chans.Keys
      && (forall id :: id in chans ==> id < nextID && |chans[id].buf| <= bufSize && (chans[id].closed <==> id !in subs))
    }

    constructor (lib: Q.Library, bufSize: int)
      ensures Valid() && this.lib == lib && this.bufSize == (if bufSize <= 0 then 1024 else bufSize)
      ensures subs == map[] && chans == map[]
    {
      this.lib := lib;
      this.bufSize := if bufSize <= 0 then 1024 else bufSize;
      subs, chans, nextID := map[], map[], 0;
    }

    method Subscribe(expr: Option<Q.Node>) returns (id: nat)
      requires Valid()
      modifies this
      ensures Valid() && id !in old(chans)
      ensures subs == old(subs)[id := expr] && chans == old(chans)[id := Chan([], false)]
    {
      id := nextID;
      nextID := nextID + 1;
      subs, chans := subs[id := expr], chans[id := Chan([], false)];
    }

    /** Delivers r without blocking; whoever has no room left is dropped. */
    method Publish(r: Record)
      requires Valid()
      modifies this`subs, this`chans
      ensures Valid()
      ensures chans == OfferedTo(lib, bufSize, r, old(subs), old(chans), old(subs).Keys)
      ensures subs == StillIn(lib, bufSize, r, old(subs), old(chans), old(subs).Keys)
    {
      NoneOffered(lib, bufSize, r, subs, chans);
      var todo := subs.Keys;
      while todo != {}
        invariant todo <= old(subs).Keys
        invariant chans == OfferedTo(lib, bufSize, r, old(subs), old(chans), old(subs).Keys - todo)
        invariant subs == StillIn(lib, bufSize, r, old(subs), old(chans), old(subs).Keys - todo)
        decreases todo
      {
        var id :| id in todo;
        OfferOne(lib, bufSize, r, old(subs), old(chans), old(subs).Keys - todo, id);
        assert old(subs).Keys - todo + {id} == old(subs).Keys - (todo - {id});
        todo := todo - {id};
        if !Wants(lib, subs[id], r) {
          continue;
        }
        if |chans[id].buf| < bufSize {
          chans := chans[id := chans[id].(buf := chans[id].buf + [r])];
        } else {
          chans := chans[id := chans[id].(closed := true)];
          subs := subs - {id};
        }
      }
      assert old(subs).Keys - {} == old(subs).Keys;
    }

    /** Takes the next record off a channel; none is left on a closed one. */
    method Receive(id: nat) returns (r: Option<Record>)
      requires Valid() && id in chans && (chans[id].buf == [] ==> chans[id].closed)
      modifies this`chans
      ensures Valid()
      ensures r.None? <==> old(chans)[id].buf == []
      ensures r.None? ==> chans == old(chans)
      ensures r.Some? ==>
        r.value == old(chans)[id].buf[0] && chans == old(chans)[id := old(chans)[id].(buf := old(chans)[id].buf[1..])]
    {
      if chans[id].buf == [] {
        return None;
      }
      r := Some(chans[id].buf[0]);
      chans := chans[id := chans[id].(buf := chans[id].buf[1..])];
    }

    /** Removes the subscription. */
    method Close(id: nat)
      requires Valid()
      modifies this`subs, this`chans
      ensures Valid() && subs == old(subs) - {id}
      ensures chans == if id in old(subs) then old(chans)[id := old(chans)[id].(closed := true)] else old(chans)
    {
      if id in subs {
        chans := chans[id := chans[id].(closed := true)];
        subs := subs - {id};
      }
    }
  }

  // ---- A subscriber over time ----

  datatype Event = Published(r: Record) | Received

  /** The channel, what was taken off it, and what was published for it. */
  datatype Feed = Feed(ch: Chan, got: seq<Record>, meant: seq<Record>)

  function Happens(lib: Q.Library, expr: Option<Q.Node>, bufSize: nat, f: Feed, e: Event): Feed {
    match e
    case Published(r) =>
      f.(ch := if f.ch.closed then f.ch else Offered(lib, expr, f.ch, r, bufSize),
         meant := if Wants(lib, expr, r) then f.meant + [r] else f.meant)
    case Received =>
      if f.ch.buf == [] then f else f.(ch := f.ch.(buf := f.ch.buf[1..]), got := f.got + [f.ch.buf[0]])
  }

  function AllHappens(lib: Q.Library, expr: Option<Q.Node>, bufSize: nat, es: seq<Event>): Feed {
    if es == [] then Feed(Chan([], false), [], [])
    else Happens(lib, expr, bufSize, AllHappens(lib, expr, bufSize, es[..|es| - 1]), es[|es| - 1])
  }

  /** A subscriber gets the matching publications in order: all of them while it
      is subscribed, a prefix of them once it was dropped. */
  lemma {:induction false} FeedIsFifo(lib: Q.Library, expr: Option<Q.Node>, bufSize: nat, es: seq<Event>)
    ensures var f := AllHappens(lib, expr, bufSize, es);
      && f.got + f.ch.buf <= f.meant
      && (!f.ch.closed ==> f.got + f.ch.buf == f.meant)
      && |f.ch.buf| <= bufSize
  {
    if es != [] {
      FeedIsFifo(lib, expr, bufSize, es[..|es| - 1]);
      var f := AllHappens(lib, expr, bufSize, es[..|es| - 1]);
      FeedStep(lib, expr, bufSize, f, es[|es| - 1]);
    }
  }

  lemma FeedStep(lib: Q.Library, expr: Option<Q.Node>, bufSize: nat, f: Feed, e: Event)
    requires f.got + f.ch.buf <= f.meant && (!f.ch.closed ==> f.got + f.ch.buf == f.meant) && |f.ch.buf| <= bufSize
    ensures var g := Happens(lib, expr, bufSize, f, e);
      && g.got + g.ch.buf <= g.meant
      && (!g.ch.closed ==> g.got + g.ch.buf == g.meant)
      && |g.ch.buf| <= bufSize
  {
    match e
    case Published(r) =>
      assert f.got + (f.ch.buf + [r]) == f.got + f.ch.buf + [r];
    case Received =>
      if f.ch.buf != [] {
        assert f.got + [f.ch.buf[0]] + f.ch.buf[1..] == f.got + f.ch.buf;
      }
  }

  // ---- Following ----

  /** Whether the live loop passes over r. */
  predicate Skipped(marks: map<string, int>, start: Time, r: Record) {
    (start != ZERO_TIME && r.timestamp < start) || (r.source in marks && r.offset <= marks[r.source])
  }

  /** What the live loop emits of a feed. */
  function Live(marks: map<string, int>, start: Time, feed: seq<Record>): seq<Record>
    decreases |feed|
  {
    if feed == [] then []
    else if Skipped(marks, start, feed[0]) then Live(marks, start, feed[1..])
    else [feed[0]] + Live(Raise(marks, feed[0].source, feed[0].offset), start, feed[1..])
  }

  /** History, then the feed without what history already gave. */
  function Followed(history: seq<Record>, start: Time, feed: seq<Record>): seq<Record> {
    history + Live(MaxOff(history), start, feed)
  }

  class Follower {
    const start: Time
    var maxEmitted: map<string, int>
    /** What the response holds so far. */
    var out: seq<Record>

    constructor (start: Time)
      ensures this.start == start && maxEmitted == map[] && out == []
    {
      this.start, maxEmitted, out := start, map[], [];
    }

    method Emit(rec: Record)
      modifies this
      ensures out == old(out) + [rec]
      ensures maxEmitted == Raise(old(maxEmitted), rec.source, rec.offset)
    {
      out := out + [rec];
      if rec.offset > At(maxEmitted, rec.source) {
        maxEmitted := maxEmitted[rec.source := rec.offset];
      }
    }

    /** The whole response: the records of the history scan and of the feed up
        to where the client leaves or the channel ends. */
    method StreamFollow(history: seq<Record>, feed: seq<Record>)
      requires maxEmitted == map[] && out == []
      modifies this
      ensures out == Followed(history, start, feed)
    {
      for i := 0 to |history|
        invariant out == history[..i] && maxEmitted == MaxOff(history[..i])
      {
        MaxOffSnoc(history[..i], history[i]);
        assert history[..i + 1] == history[..i] + [history[i]];
        Emit(history[i]);
      }
      assert history[..|history|] == history;
      assert feed[0..] == feed;
      for i := 0 to |feed|
        invariant out + Live(maxEmitted, start, feed[i..]) == Followed(history, start, feed)
      {
        var rec := feed[i];
        assert feed[i..][1..] == feed[i + 1..];
        if start != ZERO_TIME && rec.timestamp < start {
          continue;
        }
        if rec.source in maxEmitted && rec.offset <= maxEmitted[rec.source] {
          continue;
        }
        ghost var rest := Live(Raise(maxEmitted, rec.source, rec.offset), start, feed[i + 1..]);
        assert out + ([rec] + rest) == out + [rec] + rest;
        Emit(rec);
      }
    }
  }

  // ---- Never twice ----

  predicate Distinct(rs: seq<Record>) {
    forall i, j :: 0 <= i < j < |rs| ==> !(rs[i].source == rs[j].source && rs[i].offset == rs[j].offset)
  }

  /** The live part only ever goes up, whatever order the feed comes in. */
  lemma {:induction false} LiveAscends(marks: map<string, int>, start: Time, feed: seq<Record>)
    requires Positive(feed)
    ensures var rs := Live(marks, start, feed);
      Ascending(rs) && forall i :: 0 <= i < |rs| ==> rs[i].offset > At(marks, rs[i].source)
    decreases |feed|
  {
    if feed != [] {
      var r := feed[0];
      if Skipped(marks, start, r) {
        LiveAscends(marks, start, feed[1..]);
      } else {
        LiveAscends(Raise(marks, r.source, r.offset), start, feed[1..]);
      }
    }
  }

  /** Follow emits no (source, offset) twice, exactly when history does not. */
  lemma NeverTwiceIff(history: seq<Record>, start: Time, feed: seq<Record>)
    requires Positive(feed)
    ensures Distinct(Followed(history, start, feed)) <==> Distinct(history)
  {
    var live := Live(MaxOff(history), start, feed);
    var out := history + live;
    LiveAscends(MaxOff(history), start, feed);
    MaxOffIsMax(history);
    if Distinct(out) {
      forall i, j | 0 <= i < j < |history|
        ensures !(history[i].source == history[j].source && history[i].offset == history[j].offset)
      {
        assert out[i] == history[i] && out[j] == history[j];
      }
    }
    if Distinct(history) {
      forall i, j | 0 <= i < j < |out| ensures !(out[i].source == out[j].source && out[i].offset == out[j].offset) {
        if i < |history| <= j {
          assert out[i] == history[i] && out[j] == live[j - |history|];
          assert history[i] in history;
        } else if |history| <= i {
          assert out[i] == live[i - |history|] && out[j] == live[j - |history|];
        }
      }
    }
  }

  // ---- Nothing missed ----

  /** An unlimited answer holds exactly the wanted records of its lists. */
  lemma NaiveMembers(lib: Q.Library, req: Request, lists: seq<seq<Record>>)
    requires req.limit == 0
    ensures forall r :: r in Naive(lib, req, lists) <==> r in Concat(lists) && Wanted(lib, req, r)
  {
    var wanted := Filter(lib, req, Concat(lists));
    FilterMembers(lib, req, Concat(lists));
    SortSorts(wanted, req.desc);
    forall r ensures r in StableSort(wanted, req.desc) <==> r in wanted {
      assert r in StableSort(wanted, req.desc) <==> r in multiset(StableSort(wanted, req.desc));
      assert r in wanted <==> r in multiset(wanted);
    }
  }

  /** What the spool guarantees of the records it accepts, in order. */
  predicate InOrder(accepted: seq<Record>) {
    Positive(accepted) && Ascending(accepted)
  }

  /** No source's clock runs backwards. */
  predicate ClocksForward(accepted: seq<Record>) {
    forall i, j :: 0 <= i < j < |accepted| && accepted[i].source == accepted[j].source ==>
      accepted[i].timestamp <= accepted[j].timestamp
  }

  /** The feed of a subscriber that was not dropped: whatever matches and was
      accepted after it subscribed, each source in offset order. */
  ghost predicate FeedOf(lib: Q.Library, expr: Q.Node, accepted: seq<Record>, subscribed: nat, feed: seq<Record>)
    requires subscribed <= |accepted|
  {
    && Ascending(feed)
    && (forall r :: r in feed ==> r in accepted && Q.Match(lib, expr, r))
    && (forall r :: r in accepted[subscribed..] && Q.Match(lib, expr, r) ==> r in feed)
  }

  /** History is the answer up to the instant of subscription, over everything
      accepted by the time of the scan. */
  ghost predicate HistoryOf(lib: Q.Library, expr: Q.Node, start: Time, treg: Time, seen: seq<Record>, history: seq<Record>) {
    forall r :: r in history <==> r in seen && InRange(r.timestamp, start, treg) && Q.Match(lib, expr, r)
  }

  predicate FromStart(start: Time, r: Record) {
    start == ZERO_TIME || r.timestamp >= start
  }

  lemma PrefixHas(xs: seq<Record>, n: nat, i: nat)
    requires n <= |xs| && i < |xs|
    ensures i < n ==> xs[i] in xs[..n]
    ensures i >= n ==> xs[i] in xs[n..]
  {
    if i < n { assert xs[..n][i] == xs[i]; } else { assert xs[n..][i - n] == xs[i]; }
  }

  lemma PrefixIn(xs: seq<Record>, n: nat)
    requires n <= |xs|
    ensures forall x :: x in xs[..n] ==> x in xs
  {
  }

  /** History holds a record of q's source that was read past q. */
  ghost predicate Overtaken(lib: Q.Library, expr: Q.Node, start: Time, treg: Time, seen: seq<Record>, q: Record) {
    exists e :: e in seen && e.source == q.source && q.offset < e.offset
      && InRange(e.timestamp, start, treg) && Q.Match(lib, expr, e)
  }

  /** An offset stands for one record of its source. */
  lemma SameOffset(accepted: seq<Record>, r: Record, e: Record)
    requires Ascending(accepted) && r in accepted && e in accepted
    requires e.source == r.source
    ensures e.offset == r.offset ==> e == r
  {
    var i :| 0 <= i < |accepted| && accepted[i] == r;
    var j :| 0 <= j < |accepted| && accepted[j] == e;
  }

  /** Whatever comes before a scanned record in its source was scanned. */
  lemma ScannedBefore(accepted: seq<Record>, scanned: nat, r: Record, e: Record)
    requires scanned <= |accepted| && Ascending(accepted) && r in accepted && e in accepted[..scanned]
    requires e.source == r.source && r.offset <= e.offset
    ensures r in accepted[..scanned]
    ensures ClocksForward(accepted) ==> r.timestamp <= e.timestamp
  {
    var i :| 0 <= i < |accepted| && accepted[i] == r;
    var j :| 0 <= j < scanned && accepted[..scanned][j] == e;
    assert accepted[j] == e;
    PrefixHas(accepted, scanned, i);
  }

  /** The mark history leaves lies at or past a record it does not hold exactly
      when it holds a later one of the source. */
  lemma HiddenIff(lib: Q.Library, expr: Q.Node, start: Time, treg: Time, accepted: seq<Record>, seen: seq<Record>,
    history: seq<Record>, r: Record)
    requires InOrder(accepted) && forall x :: x in seen ==> x in accepted
    requires HistoryOf(lib, expr, start, treg, seen, history)
    requires r in accepted && r !in history
    ensures r.source in MaxOff(history) && r.offset <= MaxOff(history)[r.source]
       <==> Overtaken(lib, expr, start, treg, seen, r)
  {
    hide Q.Match, MaxOff, InRange;
    forall x | x in history ensures x.offset > 0 { assert x in accepted; }
    MaxOffIsMax(history);
    if r.source in MaxOff(history) && r.offset <= MaxOff(history)[r.source] {
      var e :| e in history && e.source == r.source && e.offset == MaxOff(history)[r.source];
      SameOffset(accepted, r, e);
    }
    if Overtaken(lib, expr, start, treg, seen, r) {
      var e :| e in seen && e.source == r.source && r.offset < e.offset
        && InRange(e.timestamp, start, treg) && Q.Match(lib, expr, e);
      assert e in history;
    }
  }

  /** Past the mark of its source, and in offset order, a record is emitted. */
  lemma {:induction false} LiveEmits(marks: map<string, int>, start: Time, feed: seq<Record>, r: Record)
    requires Ascending(feed) && Positive(feed) && r in feed && FromStart(start, r)
    requires r.source in marks ==> r.offset > marks[r.source]
    ensures r in Live(marks, start, feed)
    decreases |feed|
  {
    var f := feed[0];
    if f != r {
      assert r in feed[1..] by {
        var k :| 0 <= k < |feed| && feed[k] == r;
        assert feed[1..][k - 1] == r;
      }
      var k :| 0 <= k < |feed| && feed[k] == r;
      if Skipped(marks, start, f) {
        LiveEmits(marks, start, feed[1..], r);
      } else {
        LiveEmits(Raise(marks, f.source, f.offset), start, feed[1..], r);
      }
    }
  }

  lemma {:induction false} LiveMembers(marks: map<string, int>, start: Time, feed: seq<Record>)
    ensures forall r :: r in Live(marks, start, feed) ==> r in feed && !Skipped(marks, start, r)
    decreases |feed|
  {
    if feed != [] {
      LiveMembers(marks, start, feed[1..]);
      LiveMembers(Raise(marks, feed[0].source, feed[0].offset), start, feed[1..]);
    }
  }

  /** Follow misses a wanted record exactly when history does not hold it and
      either the feed does not or history holds a later one of its source. */
  lemma MissedIff(lib: Q.Library, expr: Q.Node, start: Time, treg: Time, accepted: seq<Record>, seen: seq<Record>,
    history: seq<Record>, feed: seq<Record>, q: Record)
    requires InOrder(accepted) && treg != ZERO_TIME && forall r :: r in seen ==> r in accepted
    requires HistoryOf(lib, expr, start, treg, seen, history)
    requires Ascending(feed) && forall r :: r in feed ==> r in accepted
    requires q in accepted && Q.Match(lib, expr, q) && FromStart(start, q)
    ensures q !in Followed(history, start, feed) <==>
      (q !in seen || q.timestamp > treg) && (q !in feed || Overtaken(lib, expr, start, treg, seen, q))
  {
    hide Q.Match, MaxOff, Live, Ascending;
    var marks := MaxOff(history);
    assert q in history <==> q in seen && q.timestamp <= treg;
    if q !in history {
      HiddenIff(lib, expr, start, treg, accepted, seen, history, q);
      LiveMembers(marks, start, feed);
      if q in feed && !Overtaken(lib, expr, start, treg, seen, q) {
        forall i | 0 <= i < |feed| ensures feed[i].offset > 0 { assert feed[i] in accepted; }
        LiveEmits(marks, start, feed, q);
      }
    }
  }

  /** Everything wanted was scanned or fed. */
  lemma ScannedOrFed(lib: Q.Library, expr: Q.Node, accepted: seq<Record>, subscribed: nat, scanned: nat, feed: seq<Record>, q: Record)
    requires subscribed <= scanned <= |accepted| && FeedOf(lib, expr, accepted, subscribed, feed)
    requires q in accepted && Q.Match(lib, expr, q)
    ensures q in accepted[..scanned] || q in feed
  {
    var i :| 0 <= i < |accepted| && accepted[i] == q;
    PrefixHas(accepted, scanned, i);
    PrefixHas(accepted, subscribed, i);
  }

  /** When history covers all that was accepted until the scan, follow misses a
      wanted record exactly when it is stamped after the subscription and
      either was published before it or is overtaken. */
  lemma MissedAfterScanIff(lib: Q.Library, expr: Q.Node, start: Time, treg: Time, accepted: seq<Record>,
    subscribed: nat, scanned: nat, history: seq<Record>, feed: seq<Record>, q: Record)
    requires subscribed <= scanned <= |accepted| && InOrder(accepted) && treg != ZERO_TIME
    requires HistoryOf(lib, expr, start, treg, accepted[..scanned], history)
    requires FeedOf(lib, expr, accepted, subscribed, feed)
    requires q in accepted && Q.Match(lib, expr, q) && FromStart(start, q)
    ensures q !in Followed(history, start, feed) <==>
      q.timestamp > treg && (q !in feed || Overtaken(lib, expr, start, treg, accepted[..scanned], q))
  {
    hide Q.Match, Overtaken, Followed, HistoryOf, InOrder;
    PrefixIn(accepted, scanned);
    MissedIff(lib, expr, start, treg, accepted, accepted[..scanned], history, feed, q);
    ScannedOrFed(lib, expr, accepted, subscribed, scanned, feed, q);
    OvertakenWasScanned(lib, expr, start, treg, accepted, scanned, q);
  }

  lemma OvertakenWasScanned(lib: Q.Library, expr: Q.Node, start: Time, treg: Time, accepted: seq<Record>, scanned: nat, q: Record)
    requires scanned <= |accepted| && InOrder(accepted) && q in accepted
    ensures Overtaken(lib, expr, start, treg, accepted[..scanned], q) ==> q in accepted[..scanned]
  {
    hide Q.Match, InRange;
    if Overtaken(lib, expr, start, treg, accepted[..scanned], q) {
      var e :| e in accepted[..scanned] && e.source == q.source && q.offset < e.offset
        && InRange(e.timestamp, start, treg) && Q.Match(lib, expr, e);
      ScannedBefore(accepted, scanned, q, e);
    }
  }

  /** The response adds nothing, and it is complete exactly when everything
      stamped after the subscription is fed and not overtaken. */
  lemma CompleteIff(lib: Q.Library, expr: Q.Node, start: Time, treg: Time, accepted: seq<Record>,
    subscribed: nat, scanned: nat, history: seq<Record>, feed: seq<Record>)
    requires subscribed <= scanned <= |accepted| && InOrder(accepted) && treg != ZERO_TIME
    requires HistoryOf(lib, expr, start, treg, accepted[..scanned], history)
    requires FeedOf(lib, expr, accepted, subscribed, feed)
    ensures forall r :: r in Followed(history, start, feed) ==> r in accepted && Q.Match(lib, expr, r) && FromStart(start, r)
    ensures (forall r :: r in accepted && Q.Match(lib, expr, r) && FromStart(start, r) ==> r in Followed(history, start, feed))
       <==> (forall r :: r in accepted && Q.Match(lib, expr, r) && FromStart(start, r) && r.timestamp > treg ==>
              r in feed && !Overtaken(lib, expr, start, treg, accepted[..scanned], r))
  {
    hide Q.Match, MaxOff, Live, Overtaken, InOrder;
    forall r | r in history ensures r in accepted && Q.Match(lib, expr, r) && FromStart(start, r) {
      assert r in accepted[..scanned];
    }
    LiveMembers(MaxOff(history), start, feed);
    forall r | r in accepted && Q.Match(lib, expr, r) && FromStart(start, r)
      ensures r !in Followed(history, start, feed) <==>
        r.timestamp > treg && (r !in feed || Overtaken(lib, expr, start, treg, accepted[..scanned], r))
    {
      MissedAfterScanIff(lib, expr, start, treg, accepted, subscribed, scanned, history, feed, r);
    }
  }

  /** With clocks that run forward, and nothing accepted before the
      subscription stamped after it, the response holds exactly the matching
      records accepted from `start` on. */
  lemma FollowIsComplete(lib: Q.Library, expr: Q.Node, start: Time, treg: Time, accepted: seq<Record>,
    subscribed: nat, scanned: nat, history: seq<Record>, feed: seq<Record>)
    requires subscribed <= scanned <= |accepted| && InOrder(accepted) && ClocksForward(accepted) && treg != ZERO_TIME
    requires forall i :: 0 <= i < subscribed ==> accepted[i].timestamp <= treg
    requires HistoryOf(lib, expr, start, treg, accepted[..scanned], history)
    requires FeedOf(lib, expr, accepted, subscribed, feed)
    ensures forall r :: r in Followed(history, start, feed) <==> r in accepted && Q.Match(lib, expr, r) && FromStart(start, r)
  {
    hide Q.Match, Followed, HistoryOf, Ascending, ClocksForward;
    CompleteIff(lib, expr, start, treg, accepted, subscribed, scanned, history, feed);
    forall r | r in accepted && Q.Match(lib, expr, r) && FromStart(start, r) && r.timestamp > treg
      ensures r in feed && !Overtaken(lib, expr, start, treg, accepted[..scanned], r)
    {
      var i :| 0 <= i < |accepted| && accepted[i] == r;
      PrefixHas(accepted, subscribed, i);
      if Overtaken(lib, expr, start, treg, accepted[..scanned], r) {
        var e :| e in accepted[..scanned] && e.source == r.source && r.offset < e.offset
          && InRange(e.timestamp, start, treg) && Q.Match(lib, expr, e);
        ScannedBefore(accepted, scanned, r, e);
      }
    }
  }

  /** One such loss: the clock runs backwards across the subscription, so the
      later line is in the history and its offset hides the earlier one. */
  lemma BackwardClockLoses(lib: Q.Library, q: Record, r: Record, treg: Time)
    requires q.source == r.source && 0 < q.offset < r.offset
    requires r.timestamp <= treg < q.timestamp && treg != ZERO_TIME
    ensures HistoryOf(lib, Q.MatchAll, ZERO_TIME, treg, [q, r], [r])
    ensures FeedOf(lib, Q.MatchAll, [q, r], 0, [q, r])
    ensures q !in Followed([r], ZERO_TIME, [q, r])
  {
    assert [q, r][0..] == [q, r] && [r][..0] == [];
    var marks := MaxOff([r]);
    assert MaxOff([]) == map[] && marks == Raise(map[], r.source, r.offset);
    assert r.source in marks && marks[r.source] == r.offset;
    assert Skipped(marks, ZERO_TIME, q) && Skipped(marks, ZERO_TIME, r);
    assert [q, r][1..] == [r] && [r][1..] == [];
    assert Live(marks, ZERO_TIME, [r]) == [];
    assert [q, r][0] == q;
    assert Live(marks, ZERO_TIME, [q, r]) == Live(marks, ZERO_TIME, [r]);
    assert Followed([r], ZERO_TIME, [q, r]) == [r];
    forall x ensures x in [r] <==> x in [q, r] && InRange(x.timestamp, ZERO_TIME, treg) && Q.Match(lib, Q.MatchAll, x) {}
  }
}
