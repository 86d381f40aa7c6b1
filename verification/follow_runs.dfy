/**
  A follow query over a run of the manager: the history scan reads the open
  buffer and the sealed segments, the feed is what the spool publishes, and the
  accepted order is the spool's.
 */
module FollowRuns {
  import opened Model
  import opened RecordLists
  import TimeOrder
  import opened Merge
  import opened Follow
  import E = Executor
  import Planner
  import Q = Query
  import S = Spooling

  /** The manager when the query subscribes, when the history scan lists the
      catalog, when it copies the buffer, and at the end; what earlier managers
      sealed; what the scan reads and answers; and what happens to the
      subscription. */
  datatype Session = Session(
    lib: Q.Library,
    expr: Q.Node,
    start: Time,
    treg: Time,
    size: Record -> nat,
    before: seq<Record>,
    subscribed: S.Ledger,
    listed: S.Ledger,
    copied: S.Ledger,
    ended: S.Ledger,
    catalog: seq<Planner.Segment>,
    open: seq<Record>,
    history: seq<Record>,
    published: nat,
    bufSize: nat,
    events: seq<Follow.Event>)
  {
    function Request(): Request {
      Merge.Request(expr, start, treg, 0, false)
    }

    function Accepted(): seq<Record> {
      before + ended.accepted
    }

    /** What had been accepted when the scan was through. */
    function Earlier(): seq<Record> {
      before + copied.accepted
    }

    /** What the scan can see: the segments as listed, then the buffer as copied. */
    function Visible(): seq<Record> {
      before + listed.sealed + copied.spool.buf
    }

    /** What the subscriber took off its channel, and what is left on it. */
    function Fed(): seq<Record> {
      var f := AllHappens(lib, Some(expr), bufSize, events);
      f.got + f.ch.buf
    }
  }

  ghost predicate Reaches(from: S.Ledger, to: S.Ledger, size: Record -> nat) {
    exists es :: S.PositiveArrivals(es) && S.PossibleRun(from, es, size) && S.AfterAll(from, es, size) == to
  }

  /** The subscription, the two reads of the scan and the end are points of one
      run of a manager that started on a sound catalog. */
  ghost predicate Ran(s: Session) {
    && s.treg != ZERO_TIME
    && (exists w :: S.InSequence(s.before, Started(w)) && Reaches(Started(w), s.subscribed, s.size))
    && Reaches(s.subscribed, s.listed, s.size)
    && Reaches(s.listed, s.copied, s.size)
    && Reaches(s.copied, s.ended, s.size)
  }

  function Started(w: map<string, int>): S.Ledger {
    S.Ledger(S.Seeded(w), [], [], [])
  }

  /** The scan ran over all segments and a snapshot of the buffer, and no
      segment that failed silently held something wanted. */
  ghost predicate Scanned(s: Session) {
    && (forall r :: r in Concat(E.EveryList(s.catalog, s.Request())) <==> r in s.before || r in s.listed.sealed)
    && multiset(s.open) == multiset(S.InSpan(s.copied.spool.buf, s.start, s.treg))
    && s.history == Naive(s.lib, s.Request(), E.AllLists(s.catalog, s.open, s.Request()))
  }

  function Publications(es: seq<Follow.Event>): seq<Record> {
    if es == [] then []
    else Publications(es[..|es| - 1]) + (match es[|es| - 1] case Published(r) => [r] case Received => [])
  }

  /** Everything accepted since the subscription was published, in order, and
      the subscriber was not dropped. */
  ghost predicate Subscribed(s: Session) {
    && s.published <= |s.subscribed.accepted| <= |s.ended.accepted|
    && Publications(s.events) == s.ended.accepted[s.published..]
    && !AllHappens(s.lib, Some(s.expr), s.bufSize, s.events).ch.closed
  }

  // ---- The accepted order ----

  lemma ReachesInSequence(before: seq<Record>, from: S.Ledger, to: S.Ledger, size: Record -> nat)
    requires Reaches(from, to, size) && S.InSequence(before, from)
    ensures S.InSequence(before, to) && from.accepted <= to.accepted && from.sealed <= to.sealed
  {
    hide S.InSequence;
    var es :| S.PositiveArrivals(es) && S.PossibleRun(from, es, size) && S.AfterAll(from, es, size) == to;
    S.AcceptedAscend(before, from, es, size);
    S.SealedGrows(from, es, size);
  }

  lemma ReachesConserved(from: S.Ledger, to: S.Ledger, size: Record -> nat)
    requires Reaches(from, to, size) && S.Conserved(from, size)
    ensures S.Conserved(to, size)
  {
    hide S.Conserved;
    var es :| S.PositiveArrivals(es) && S.PossibleRun(from, es, size) && S.AfterAll(from, es, size) == to;
    S.Conservation(from, es, size);
  }

  lemma RunFacts(s: Session)
    requires Ran(s)
    ensures S.InSequence(s.before, s.ended) && S.InSequence(s.before, s.copied)
    ensures s.subscribed.accepted <= s.copied.accepted <= s.ended.accepted
    ensures s.listed.sealed <= s.copied.sealed
    ensures S.Conserved(s.copied, s.size)
  {
    hide S.InSequence, S.Conserved, Reaches;
    var w :| S.InSequence(s.before, Started(w)) && Reaches(Started(w), s.subscribed, s.size);
    StartConserved(w, s.size);
    ReachesInSequence(s.before, Started(w), s.subscribed, s.size);
    ReachesInSequence(s.before, s.subscribed, s.listed, s.size);
    ReachesInSequence(s.before, s.listed, s.copied, s.size);
    ReachesInSequence(s.before, s.copied, s.ended, s.size);
    ReachesConserved(Started(w), s.subscribed, s.size);
    ReachesConserved(s.subscribed, s.listed, s.size);
    ReachesConserved(s.listed, s.copied, s.size);
  }

  lemma StartConserved(w: map<string, int>, size: Record -> nat)
    ensures S.Conserved(Started(w), size)
  {
  }

  /** Where each record accepted by then is. */
  lemma Partition(s: Session, q: Record)
    requires Ran(s)
    ensures multiset(s.Earlier())[q] <= 1
    ensures multiset(s.Earlier())[q]
         == multiset(s.before)[q] + multiset(s.copied.sealed)[q] + S.InFlight(s.copied.flights)[q] + multiset(s.copied.spool.buf)[q]
    ensures multiset(s.listed.sealed)[q] <= multiset(s.copied.sealed)[q]
    ensures multiset(s.Visible())[q]
         == multiset(s.before)[q] + multiset(s.listed.sealed)[q] + multiset(s.copied.spool.buf)[q]
  {
    hide S.InFlight, Reaches;
    RunFacts(s);
    AscendingOnce(s.Earlier(), q);
    var l, m := s.copied.sealed, |s.listed.sealed|;
    assert l == l[..m] + l[m..] && l[..m] == s.listed.sealed;
  }

  lemma {:induction false} AscendingOnce(rs: seq<Record>, r: Record)
    requires Ascending(rs)
    ensures multiset(rs)[r] <= 1
  {
    if rs != [] {
      var front, last := rs[..|rs| - 1], rs[|rs| - 1];
      AscendingOnce(front, r);
      assert rs == front + [last];
    }
  }

  /** What is visible was accepted. */
  lemma VisibleAccepted(s: Session)
    requires Ran(s)
    ensures forall r :: r in s.Visible() ==> r in s.Earlier()
    ensures forall r :: r in s.Earlier() ==> r in s.Accepted()
    ensures InOrder(s.Accepted())
  {
    hide Reaches, S.Conserved, S.InFlight;
    RunFacts(s);
    forall r | r in s.Visible() ensures r in s.Earlier() {
      Partition(s, r);
      assert r in multiset(s.Visible());
      assert r in multiset(s.Earlier());
    }
    forall r | r in s.copied.accepted ensures r in s.ended.accepted {}
  }

  // ---- History ----

  lemma {:induction false} InSpanMembers(rs: seq<Record>, start: Time, end: Time)
    ensures forall r :: r in S.InSpan(rs, start, end) <==> r in rs && InRange(r.timestamp, start, end)
  {
    if rs != [] {
      InSpanMembers(rs[..|rs| - 1], start, end);
      assert rs == rs[..|rs| - 1] + [rs[|rs| - 1]];
    }
  }

  lemma OpenMembers(s: Session)
    requires multiset(s.open) == multiset(S.InSpan(s.copied.spool.buf, s.start, s.treg))
    ensures forall r :: r in s.open <==> r in s.copied.spool.buf && InRange(r.timestamp, s.start, s.treg)
  {
    var span := S.InSpan(s.copied.spool.buf, s.start, s.treg);
    InSpanMembers(s.copied.spool.buf, s.start, s.treg);
    forall r ensures r in s.open <==> r in span {
      assert r in s.open <==> r in multiset(s.open);
      assert r in span <==> r in multiset(span);
    }
  }

  /** The scan answers with the wanted records among those it can see. */
  lemma HistoryIsVisible(s: Session)
    requires Scanned(s)
    ensures HistoryOf(s.lib, s.expr, s.start, s.treg, s.Visible(), s.history)
  {
    hide Naive, Concat, E.EveryList, S.InSpan, Q.Match, InRange;
    var lists := E.EveryList(s.catalog, s.Request());
    OpenMembers(s);
    NaiveMembers(s.lib, s.Request(), E.AllLists(s.catalog, s.open, s.Request()));
    ConcatSnoc(lists, s.open);
    forall r ensures r in Concat(lists + [s.open]) <==> r in Concat(lists) || r in s.open {}
  }

  // ---- Feed ----

  function Matching(lib: Q.Library, expr: Q.Node, rs: seq<Record>): seq<Record> {
    if rs == [] then []
    else Matching(lib, expr, rs[..|rs| - 1]) + if Q.Match(lib, expr, rs[|rs| - 1]) then [rs[|rs| - 1]] else []
  }

  lemma {:induction false} MeantIsMatching(lib: Q.Library, expr: Q.Node, bufSize: nat, es: seq<Follow.Event>)
    ensures AllHappens(lib, Some(expr), bufSize, es).meant == Matching(lib, expr, Publications(es))
  {
    hide Q.Match;
    if es != [] {
      MeantIsMatching(lib, expr, bufSize, es[..|es| - 1]);
      var pubs := Publications(es[..|es| - 1]);
      if es[|es| - 1].Published? {
        assert (pubs + [es[|es| - 1].r])[..|pubs|] == pubs;
      } else {
        assert pubs + [] == pubs;
      }
    }
  }

  lemma {:induction false} MatchingMembers(lib: Q.Library, expr: Q.Node, rs: seq<Record>)
    requires Ascending(rs)
    ensures forall r :: r in Matching(lib, expr, rs) <==> r in rs && Q.Match(lib, expr, r)
    ensures Ascending(Matching(lib, expr, rs))
  {
    hide Q.Match;
    if rs != [] {
      var front, last := rs[..|rs| - 1], rs[|rs| - 1];
      MatchingMembers(lib, expr, front);
      assert rs == front + [last];
      var kept := Matching(lib, expr, front);
      if Q.Match(lib, expr, last) {
        forall i | 0 <= i < |kept| && kept[i].source == last.source ensures kept[i].offset < last.offset {
          assert kept[i] in front;
        }
      }
    }
  }

  lemma AscendingTail(before: seq<Record>, accepted: seq<Record>, n: nat)
    requires Ascending(before + accepted) && n <= |accepted|
    ensures Ascending(accepted[n..])
  {
    var all, tail := before + accepted, accepted[n..];
    forall i, j | 0 <= i < j < |tail| && tail[i].source == tail[j].source ensures tail[i].offset < tail[j].offset {
      assert tail[i] == all[|before| + n + i] && tail[j] == all[|before| + n + j];
    }
  }

  /** The subscriber is fed the matching publications, in order. */
  lemma FedIsPublished(s: Session)
    requires Subscribed(s) && S.InSequence(s.before, s.ended)
    ensures Ascending(s.Fed())
    ensures forall r :: r in s.Fed() <==> r in s.ended.accepted[s.published..] && Q.Match(s.lib, s.expr, r)
  {
    hide Q.Match, AllHappens, Matching;
    FeedIsFifo(s.lib, Some(s.expr), s.bufSize, s.events);
    MeantIsMatching(s.lib, s.expr, s.bufSize, s.events);
    AscendingTail(s.before, s.ended.accepted, s.published);
    MatchingMembers(s.lib, s.expr, s.ended.accepted[s.published..]);
  }

  // ---- The response ----

  /** A follow query over a run misses a wanted record exactly when the scan did
      not see it or it is stamped after the subscription, and either it was
      published before the subscription or history holds a later one of its
      source. */
  lemma MissedInRunIff(s: Session, q: Record)
    requires Ran(s) && Scanned(s) && Subscribed(s)
    requires q in s.Accepted() && Q.Match(s.lib, s.expr, q) && FromStart(s.start, q)
    ensures q !in Followed(s.history, s.start, s.Fed()) <==>
      && (q !in s.Visible() || q.timestamp > s.treg)
      && (q !in s.ended.accepted[s.published..] || Overtaken(s.lib, s.expr, s.start, s.treg, s.Visible(), q))
  {
    hide Q.Match, Followed, Overtaken, HistoryOf, Reaches, Ascending, S.Conserved;
    RunFacts(s);
    VisibleAccepted(s);
    HistoryIsVisible(s);
    FedIsPublished(s);
    MissedIff(s.lib, s.expr, s.start, s.treg, s.Accepted(), s.Visible(), s.history, s.Fed(), q);
  }

  // ---- Seals during the scan ----

  /** Being sealed while the buffer is copied, or sealed since the catalog was listed. */
  predicate Slipped(s: Session, q: Record) {
    q in S.InFlight(s.copied.flights) || (q in s.copied.sealed && q !in s.listed.sealed)
  }

  /** The scan sees what was accepted by then but for what a seal takes past it. */
  lemma VisibleIff(s: Session, q: Record)
    requires Ran(s) && q in s.Earlier()
    ensures q !in s.Visible() <==> Slipped(s, q)
  {
    hide S.InFlight, Ran;
    Partition(s, q);
    assert q in s.Visible() <==> q in multiset(s.Visible());
    assert q in s.Earlier() <==> q in multiset(s.Earlier());
    assert q in s.copied.sealed <==> q in multiset(s.copied.sealed);
    assert q in s.listed.sealed <==> q in multiset(s.listed.sealed);
  }

  /** A record that a seal takes past the scan is missed if it was published
      before the subscription, whatever its timestamp. */
  lemma SlippedIsMissed(s: Session, q: Record)
    requires Ran(s) && Scanned(s) && Subscribed(s) && q in s.Earlier() && Slipped(s, q)
    requires Q.Match(s.lib, s.expr, q) && FromStart(s.start, q)
    requires q !in s.ended.accepted[s.published..]
    ensures q !in Followed(s.history, s.start, s.Fed())
  {
    hide Q.Match, Followed, Overtaken, Ran, Scanned, Subscribed, Slipped;
    VisibleAccepted(s);
    VisibleIff(s, q);
    MissedInRunIff(s, q);
  }

  /** No seal is in flight when the buffer is copied and none ended since the
      catalog was listed. */
  predicate Undisturbed(s: Session) {
    s.copied.flights == [] && s.copied.sealed == s.listed.sealed
  }

  lemma SeenPrefix(s: Session)
    requires Ran(s) && Undisturbed(s)
    ensures var n := |s.Earlier()|;
      && n <= |s.Accepted()|
      && (forall r :: r in s.Accepted()[..n] <==> r in s.Visible())
  {
    hide Reaches, S.InSequence;
    RunFacts(s);
    VisibleAccepted(s);
    assert s.Accepted()[..|s.Earlier()|] == s.Earlier();
    forall r | r in s.Earlier() ensures r in s.Visible() {
      VisibleIff(s, r);
    }
  }

  lemma TailWithin(before: seq<Record>, ended: seq<Record>, p: nat, n: nat)
    requires p <= n <= |ended|
    ensures forall r :: r in (before + ended)[|before| + n..] ==> r in ended[p..]
    ensures forall r :: r in ended[p..] ==> r in before + ended
  {
    assert (before + ended)[|before| + n..] == ended[n..];
    assert ended[p..] == ended[p..n] + ended[n..];
  }

  /** In terms of all accepted records the feed is complete from the subscription on. */
  lemma FedSince(s: Session)
    requires Ran(s) && Subscribed(s)
    ensures |s.before| + |s.subscribed.accepted| <= |s.Accepted()|
    ensures FeedOf(s.lib, s.expr, s.Accepted(), |s.before| + |s.subscribed.accepted|, s.Fed())
  {
    hide Q.Match, Reaches, S.Conserved, Ascending, AllHappens, Publications;
    RunFacts(s);
    FedIsPublished(s);
    TailWithin(s.before, s.ended.accepted, s.published, |s.subscribed.accepted|);
  }

  /** With no seal during the scan, with clocks that run forward and nothing
      accepted before the subscription stamped after it, the response holds
      exactly the matching records accepted from `start` on. */
  lemma RunIsComplete(s: Session)
    requires Ran(s) && Scanned(s) && Subscribed(s) && Undisturbed(s)
    requires ClocksForward(s.Accepted())
    requires forall r :: r in s.before + s.subscribed.accepted ==> r.timestamp <= s.treg
    ensures forall r :: r in Followed(s.history, s.start, s.Fed()) <==>
      r in s.Accepted() && Q.Match(s.lib, s.expr, r) && FromStart(s.start, r)
  {
    hide Q.Match, Followed, ClocksForward, Reaches, S.Conserved, Ascending, FeedOf, AllHappens, Publications, Scanned;
    RunFacts(s);
    VisibleAccepted(s);
    SeenPrefix(s);
    HistoryIsVisible(s);
    FedSince(s);
    var accepted, subscribed := s.Accepted(), |s.before| + |s.subscribed.accepted|;
    assert accepted[..subscribed] == s.before + s.subscribed.accepted;
    forall i | 0 <= i < subscribed ensures accepted[i].timestamp <= s.treg {
      assert accepted[i] == accepted[..subscribed][i];
    }
    FollowIsComplete(s.lib, s.expr, s.start, s.treg, accepted, subscribed, |s.Earlier()|, s.history, s.Fed());
  }

  // ---- Never twice ----

  lemma SameCounts(xs: seq<Record>, desc: bool)
    ensures multiset(TimeOrder.StableSort(xs, desc)) == multiset(xs)
  {
    TimeOrder.SortSorts(xs, desc);
  }

  lemma {:induction false} FilterCounts(lib: Q.Library, req: Request, xs: seq<Record>, r: Record)
    ensures multiset(Filter(lib, req, xs))[r] == if Wanted(lib, req, r) then multiset(xs)[r] else 0
  {
    hide Wanted;
    if xs != [] {
      FilterCounts(lib, req, xs[1..], r);
      assert xs == [xs[0]] + xs[1..];
    }
  }

  lemma {:induction false} InSpanCounts(rs: seq<Record>, start: Time, end: Time, r: Record)
    ensures multiset(S.InSpan(rs, start, end))[r] == if InRange(r.timestamp, start, end) then multiset(rs)[r] else 0
  {
    hide InRange;
    if rs != [] {
      InSpanCounts(rs[..|rs| - 1], start, end, r);
      assert rs == rs[..|rs| - 1] + [rs[|rs| - 1]];
    }
  }

  /** How often history holds a wanted record. */
  lemma HistoryCounts(s: Session, r: Record)
    requires Scanned(s)
    ensures multiset(s.history)[r]
         == if Wanted(s.lib, s.Request(), r)
            then multiset(Concat(E.EveryList(s.catalog, s.Request())))[r] + multiset(s.copied.spool.buf)[r] else 0
  {
    hide Concat, E.EveryList, S.InSpan, Q.Match, Filter, TimeOrder.StableSort;
    var req := s.Request();
    var lists := E.EveryList(s.catalog, req);
    ConcatSnoc(lists, s.open);
    SameCounts(Filter(s.lib, req, Concat(lists + [s.open])), false);
    FilterCounts(s.lib, req, Concat(lists + [s.open]), r);
    InSpanCounts(s.copied.spool.buf, s.start, s.treg, r);
  }

  lemma TwoPlaces(rs: seq<Record>, i: nat, j: nat)
    requires i < j < |rs|
    ensures rs[i] == rs[j] ==> multiset(rs)[rs[i]] >= 2
  {
    var front, back := rs[..j], rs[j..];
    assert rs == front + back && rs[i] in front && rs[j] in back by {
      assert front[i] == rs[i] && back[0] == rs[j];
    }
    assert multiset(front)[rs[i]] >= 1 && multiset(back)[rs[j]] >= 1;
  }

  lemma {:induction false} DistinctOnce(rs: seq<Record>, r: Record)
    requires Distinct(rs)
    ensures multiset(rs)[r] <= 1
  {
    if rs != [] {
      var front, last := rs[..|rs| - 1], rs[|rs| - 1];
      DistinctOnce(front, r);
      assert rs == front + [last];
      forall i | 0 <= i < |front| ensures front[i] != last { assert rs[i] == front[i]; }
    }
  }

  /** Among accepted records only a record that occurs twice repeats a pair. */
  lemma DistinctIff(accepted: seq<Record>, rs: seq<Record>)
    requires Ascending(accepted) && forall r :: r in rs ==> r in accepted
    ensures Distinct(rs) <==> forall r :: multiset(rs)[r] <= 1
  {
    if Distinct(rs) {
      forall r ensures multiset(rs)[r] <= 1 { DistinctOnce(rs, r); }
    }
    if forall r :: multiset(rs)[r] <= 1 {
      forall i, j | 0 <= i < j < |rs| ensures !(rs[i].source == rs[j].source && rs[i].offset == rs[j].offset) {
        TwoPlaces(rs, i, j);
        if rs[i].source == rs[j].source { SameOffset(accepted, rs[i], rs[j]); }
      }
    }
  }

  /** Follow emits no (source, offset) twice, exactly when no wanted record is in
      two of the segments, or twice in one. */
  lemma NeverTwiceInRunIff(s: Session)
    requires Ran(s) && Scanned(s) && Subscribed(s)
    ensures Distinct(Followed(s.history, s.start, s.Fed())) <==>
      forall r :: Wanted(s.lib, s.Request(), r) ==> multiset(Concat(E.EveryList(s.catalog, s.Request())))[r] <= 1
  {
    hide Wanted, Distinct, Followed, Reaches, S.Conserved, Scanned, Concat, E.EveryList, Ascending;
    RunFacts(s);
    VisibleAccepted(s);
    FedPositive(s);
    NeverTwiceIff(s.history, s.start, s.Fed());
    HistoryAccepted(s);
    DistinctIff(s.Accepted(), s.history);
    forall r ensures multiset(s.history)[r] <= 1 <==>
      (Wanted(s.lib, s.Request(), r) ==> multiset(Concat(E.EveryList(s.catalog, s.Request())))[r] <= 1)
    {
      HistoryCounts(s, r);
      NotBoth(s, r);
    }
  }

  lemma FedPositive(s: Session)
    requires Ran(s) && Subscribed(s)
    ensures Positive(s.Fed())
  {
    hide Q.Match, AllHappens, Reaches, Ascending, S.Conserved;
    RunFacts(s);
    FedIsPublished(s);
    forall i | 0 <= i < |s.Fed()| ensures s.Fed()[i].offset > 0 {
      assert s.Fed()[i] in s.Fed();
      assert s.Fed()[i] in s.Accepted();
    }
  }

  lemma HistoryAccepted(s: Session)
    requires Ran(s) && Scanned(s)
    ensures forall r :: r in s.history ==> r in s.Accepted()
  {
    hide Ran, Q.Match, InRange;
    VisibleAccepted(s);
    HistoryIsVisible(s);
  }

  /** No record is both in a listed segment and in the copied buffer. */
  lemma NotBoth(s: Session, r: Record)
    requires Ran(s) && Scanned(s)
    ensures multiset(s.copied.spool.buf)[r] <= 1
    ensures multiset(s.copied.spool.buf)[r] == 0 || multiset(Concat(E.EveryList(s.catalog, s.Request())))[r] == 0
  {
    hide Ran, Q.Match, Naive, S.InFlight;
    Partition(s, r);
    var listed := Concat(E.EveryList(s.catalog, s.Request()));
    assert r in listed <==> r in multiset(listed);
    assert r in s.before <==> r in multiset(s.before);
    assert r in s.listed.sealed <==> r in multiset(s.listed.sealed);
  }
}
