/**
  Executor.Run (internal/query/planner.go:44-121) against the naive query.
 */
module Executor {
  import opened Model
  import opened RecordLists
  import opened TimeOrder
  import opened Merge
  import opened Planner
  import Q = Query

  /** A cursor of either kind. */
  datatype RecIter = Seg(s: SegIter) | Slice(l: SliceIter) {
    function Obj(): object {
      match this case Seg(s) => s case Slice(l) => l
    }

    ghost predicate Valid()
      reads Obj()
    {
      match this case Seg(s) => s.Valid() case Slice(l) => l.Valid()
    }

    predicate Failed()
      reads Obj()
    {
      match this case Seg(s) => s.err case Slice(l) => false
    }

    ghost function Rest(): seq<Record>
      requires Valid()
      reads Obj()
    {
      match this case Seg(s) => s.Rest() case Slice(l) => l.Rest()
    }

    /** No read failed, and none ahead will. */
    ghost predicate Safe()
      reads Obj()
    {
      match this case Seg(s) => s.Valid() && s.AllReadable() case Slice(l) => true
    }

    /** The head is loaded, so it can be popped. */
    ghost predicate Ready()
      requires Valid()
      reads Obj()
    {
      match this case Seg(s) => !s.err && s.pos < |s.buf| case Slice(l) => l.Rest() != []
    }

    /** The cursor stands for `rest`, unless a read failed. */
    ghost predicate Yields(rest: seq<Record>)
      reads Obj()
    {
      Valid() && (!Failed() ==> Rest() == rest)
    }

    method Peek(ghost rest: seq<Record>) returns (r: Option<Record>)
      requires Yields(rest)
      modifies Obj()
      ensures Yields(rest)
      ensures Failed() ==> r == None
      ensures !Failed() ==> r == if rest == [] then None else Some(rest[0])
      ensures r.Some? ==> Ready()
      ensures old(Failed()) ==> Failed()
      ensures old(Ready()) ==> !Failed()
      ensures old(Safe()) ==> Safe()
    {
      match this
      case Seg(s) => r := s.Peek();
      case Slice(l) => r := l.Peek();
    }

    method Pop(ghost rest: seq<Record>)
      requires Yields(rest) && Ready() && rest != []
      modifies Obj()
      ensures Yields(rest[1..]) && !Failed()
      ensures old(Safe()) ==> Safe()
    {
      match this
      case Seg(s) => s.Pop();
      case Slice(l) => l.Pop();
    }
  }

  ghost function Objs(iters: seq<RecIter>): set<object> {
    set i | 0 <= i < |iters| :: iters[i].Obj()
  }

  /** Distinct cursors, standing for `rests`. */
  ghost predicate Stand(iters: seq<RecIter>, rests: seq<seq<Record>>)
    reads Objs(iters)
  {
    && |iters| == |rests|
    && (forall i, j :: 0 <= i < j < |iters| ==> iters[i].Obj() != iters[j].Obj())
    && (forall i :: 0 <= i < |iters| ==> iters[i].Yields(rests[i]))
  }

  ghost predicate AnyFailed(iters: seq<RecIter>)
    reads Objs(iters)
  {
    exists i :: 0 <= i < |iters| && iters[i].Failed()
  }

  ghost predicate AllSafe(iters: seq<RecIter>)
    reads Objs(iters)
  {
    forall i :: 0 <= i < |iters| ==> iters[i].Safe()
  }

  /** No cursor that still yields has a head that sorts before h. */
  ghost predicate NotBefore(iters: seq<RecIter>, rests: seq<seq<Record>>, h: Record, desc: bool)
    reads Objs(iters)
  {
    forall j :: 0 <= j < |iters| && j < |rests| && !iters[j].Failed() && rests[j] != [] ==> !Before(rests[j][0], h, desc)
  }

  /** Peeks at one cursor; the others do not change. */
  method PeekAt(iters: seq<RecIter>, i: nat, ghost rests: seq<seq<Record>>) returns (r: Option<Record>)
    requires Stand(iters, rests) && i < |iters|
    modifies Objs(iters)
    ensures Stand(iters, rests)
    ensures iters[i].Failed() ==> r == None
    ensures !iters[i].Failed() ==> r == if rests[i] == [] then None else Some(rests[i][0])
    ensures r.Some? ==> iters[i].Ready()
    ensures forall j :: 0 <= j < |iters| && j != i ==>
      iters[j].Failed() == old(iters[j].Failed()) && iters[j].Ready() == old(iters[j].Ready())
    ensures old(iters[i].Failed()) ==> iters[i].Failed()
    ensures old(iters[i].Ready()) ==> !iters[i].Failed()
    ensures old(AllSafe(iters)) ==> AllSafe(iters)
  {
    assert iters[i].Obj() in Objs(iters);
    assert iters[i].Yields(rests[i]);
    r := iters[i].Peek(rests[i]);
    forall j | 0 <= j < |iters| && j != i
      ensures iters[j].Yields(rests[j])
      ensures iters[j].Failed() == old(iters[j].Failed()) && iters[j].Ready() == old(iters[j].Ready())
      ensures old(iters[j].Safe()) ==> iters[j].Safe()
    {
      assert iters[j].Obj() != iters[i].Obj();
      assert old(iters[j].Yields(rests[j]));
    }
  }

  /** best is the first minimum of the heads seen so far. */
  ghost predicate Leads(heads: seq<Option<Record>>, best: Option<nat>, desc: bool) {
    match best
    case None => forall j :: 0 <= j < |heads| ==> heads[j].None?
    case Some(k) =>
      && k < |heads| && heads[k].Some?
      && (forall j :: 0 <= j < k && heads[j].Some? ==> Before(heads[k].value, heads[j].value, desc))
      && (forall j :: k <= j < |heads| && heads[j].Some? ==> !Before(heads[j].value, heads[k].value, desc))
  }

  lemma LeadsStep(heads: seq<Option<Record>>, best: Option<nat>, h: Option<Record>, desc: bool)
    requires Leads(heads, best, desc)
    ensures
      var best' := if h.None? then best
                   else if best.None? || Before(h.value, heads[best.value].value, desc) then Some(|heads|) else best;
      Leads(heads + [h], best', desc)
  {
  }

  /** The heads are those of `rests`, where no read failed. */
  ghost predicate HeadsOf(iters: seq<RecIter>, rests: seq<seq<Record>>, heads: seq<Option<Record>>)
    reads Objs(iters)
  {
    && |heads| <= |iters| == |rests|
    && (forall j :: 0 <= j < |heads| && heads[j].Some? ==> rests[j] != [] && heads[j].value == rests[j][0])
    && (forall j :: 0 <= j < |heads| && heads[j].None? ==> iters[j].Failed() || rests[j] == [])
  }

  lemma LeaderNotBefore(iters: seq<RecIter>, rests: seq<seq<Record>>, heads: seq<Option<Record>>, best: nat, desc: bool)
    requires HeadsOf(iters, rests, heads) && |heads| == |iters| && Leads(heads, Some(best), desc)
    ensures NotBefore(iters, rests, rests[best][0], desc)
  {
    forall j | 0 <= j < |iters| && !iters[j].Failed() && rests[j] != [] ensures !Before(rests[j][0], rests[best][0], desc) {
      assert heads[j].Some?;
    }
  }

  lemma NotBeforeAt(iters: seq<RecIter>, rests: seq<seq<Record>>, k: nat, h: Record, desc: bool)
    requires NotBefore(iters, rests, h, desc) && k < |iters| && k < |rests|
    requires Stand(iters, rests) && iters[k].Ready() && rests[k] != []
    ensures !Before(rests[k][0], h, desc)
  {
  }

  lemma LeaderIsBest(iters: seq<RecIter>, rests: seq<seq<Record>>, heads: seq<Option<Record>>, best: Option<nat>, desc: bool)
    requires HeadsOf(iters, rests, heads) && |heads| == |iters| && Leads(heads, best, desc) && !AnyFailed(iters)
    ensures best.Some? ==> Best(rests, best.value, desc)
    ensures best.None? ==> forall j :: 0 <= j < |rests| ==> rests[j] == []
  {
    forall j | 0 <= j < |heads| ensures heads[j].None? <==> rests[j] == [] {
      assert !iters[j].Failed();
    }
  }

  /** Failed reads stay failed, safe cursors stay safe. */
  twostate predicate Onward(iters: seq<RecIter>)
    reads Objs(iters)
  {
    && (forall j :: 0 <= j < |iters| && old(iters[j].Failed()) ==> iters[j].Failed())
    && (old(AllSafe(iters)) ==> AllSafe(iters))
  }

  /** One round of pickNext: cursor i against the best so far. */
  method Challenge(iters: seq<RecIter>, i: nat, best: Option<nat>, desc: bool, ghost rests: seq<seq<Record>>, ghost heads: seq<Option<Record>>)
    returns (winner: Option<nat>, ghost h: Option<Record>)
    requires Stand(iters, rests) && HeadsOf(iters, rests, heads) && |heads| == i < |iters| && Leads(heads, best, desc)
    requires best.Some? ==> iters[best.value].Ready()
    modifies Objs(iters)
    ensures Stand(iters, rests) && HeadsOf(iters, rests, heads + [h]) && Leads(heads + [h], winner, desc)
    ensures winner.Some? ==> winner.value <= i && iters[winner.value].Ready()
    ensures Onward(iters)
  {
    var head := PeekAt(iters, i, rests);
    h := head;
    LeadsStep(heads, best, h, desc);
    winner := best;
    if head.None? {
      return;
    }
    if best.None? {
      winner := Some(i);
      return;
    }
    var bh := PeekAt(iters, best.value, rests);
    if Before(head.value, bh.value, desc) {
      winner := Some(i);
    }
  }

  /** The cursor whose head sorts first, the earliest of equals. */
  method PickNext(iters: seq<RecIter>, desc: bool, ghost rests: seq<seq<Record>>) returns (best: Option<nat>)
    requires Stand(iters, rests)
    modifies Objs(iters)
    ensures Stand(iters, rests)
    ensures old(AnyFailed(iters)) ==> AnyFailed(iters)
    ensures best.Some? ==> best.value < |iters| && iters[best.value].Ready() && rests[best.value] != []
    ensures best.Some? ==> NotBefore(iters, rests, rests[best.value][0], desc)
    ensures !AnyFailed(iters) && best.Some? ==> Best(rests, best.value, desc)
    ensures !AnyFailed(iters) && best.None? ==> forall j :: 0 <= j < |rests| ==> rests[j] == []
    ensures Onward(iters)
  {
    best := None;
    ghost var heads: seq<Option<Record>> := [];
    for i := 0 to |iters|
      invariant Stand(iters, rests) && HeadsOf(iters, rests, heads) && |heads| == i && Leads(heads, best, desc)
      invariant Onward(iters)
      invariant best.Some? ==> iters[best.value].Ready()
    {
      ghost var h;
      best, h := Challenge(iters, i, best, desc, rests, heads);
      heads := heads + [h];
    }
    if best.Some? {
      LeaderNotBefore(iters, rests, heads, best.value, desc);
    }
    if !AnyFailed(iters) {
      LeaderIsBest(iters, rests, heads, best, desc);
    }
  }

  /** Cursors for `rests` without a failed read and, when `safe`, none to come. */
  ghost predicate Opened(iters: seq<RecIter>, rests: seq<seq<Record>>, safe: bool)
    reads Objs(iters)
  {
    Stand(iters, rests) && !AnyFailed(iters) && (safe ==> AllSafe(iters))
  }

  lemma OpenedAppend(iters: seq<RecIter>, rests: seq<seq<Record>>, it: RecIter, rest: seq<Record>, safe: bool)
    requires Opened(iters, rests, safe) && it.Obj() !in Objs(iters)
    requires it.Yields(rest) && !it.Failed() && (safe ==> it.Safe())
    ensures Opened(iters + [it], rests + [rest], safe)
    ensures Objs(iters + [it]) == Objs(iters) + {it.Obj()}
  {
    var both := iters + [it];
    forall i, j | 0 <= i < j < |both| ensures both[i].Obj() != both[j].Obj() {
      assert iters[i].Obj() in Objs(iters);
    }
    forall x | x in Objs(iters) + {it.Obj()} ensures x in Objs(both) {
      if x in Objs(iters) {
        var i :| 0 <= i < |iters| && iters[i].Obj() == x;
        assert both[i].Obj() == x;
      } else {
        assert both[|iters|].Obj() == x;
      }
    }
  }

  /** The lists of the naive query: readable segments, then the open buffer. */
  function Lists(catalog: seq<Segment>, open: seq<Record>, req: Request): seq<seq<Record>> {
    FullLists(catalog, req) + [Directed(open, req.desc)]
  }

  /** What is read: the kept cursors, then the open buffer. */
  function ReadLists(catalog: seq<Segment>, open: seq<Record>, req: Request): seq<seq<Record>> {
    KeptLists(catalog, req) + [Directed(open, req.desc)]
  }

  /** Some consulted segment cannot be opened or has an unreadable block to read. */
  predicate Broken(catalog: seq<Segment>, req: Request) {
    exists i :: 0 <= i < |catalog| && Consulted(catalog[i], req)
      && (!catalog[i].opens || exists b :: b in Traversal(catalog[i], req) && !b.readable)
  }

  /** A new cursor, and whether it has a head. */
  method OpenOne(seg: Segment, req: Request) returns (it: SegIter, found: bool)
    requires SegmentShape(seg)
    ensures fresh(it) && it.Valid()
    ensures found <==> Traversal(seg, req) != [] && Traversal(seg, req)[0].readable
    ensures found ==> !it.err && it.Rest() == Contents(Traversal(seg, req), req.desc)
    ensures (forall b :: b in Traversal(seg, req) ==> b.readable) ==> it.AllReadable()
  {
    it := new SegIter(seg, req);
    var head := it.Peek();
    found := head.Some?;
    NonEmptyContents(seg, req);
  }

  lemma NonEmptyContents(seg: Segment, req: Request)
    requires SegmentShape(seg)
    ensures Contents(Traversal(seg, req), req.desc) == [] <==> Traversal(seg, req) == []
  {
    TraversalMembers(seg.blocks, req.start, req.end);
    var t := Traversal(seg, req);
    ReverseBlocksAt(Chosen(seg.blocks, req.start, req.end));
    if t != [] {
      assert t[0] in Chosen(seg.blocks, req.start, req.end);
      ReverseAt(t[0].recs);
      assert |Directed(t[0].recs, req.desc)| > 0;
    }
  }

  lemma {:induction false} TraversalMembers(blocks: seq<Block>, start: Time, end: Time)
    ensures forall b :: b in Chosen(blocks, start, end) ==> b in blocks
  {
    if blocks != [] {
      TraversalMembers(blocks[..|blocks| - 1], start, end);
    }
  }

  lemma KeptSkip(catalog: seq<Segment>, req: Request, n: nat)
    requires n < |catalog| && !Kept(catalog[n], req)
    ensures KeptLists(catalog[..n + 1], req) == KeptLists(catalog[..n], req)
  {
    assert catalog[..n + 1][..n] == catalog[..n];
  }

  lemma KeptTake(catalog: seq<Segment>, req: Request, n: nat)
    requires n < |catalog| && Kept(catalog[n], req)
    ensures KeptLists(catalog[..n + 1], req) == KeptLists(catalog[..n], req) + [Contents(Traversal(catalog[n], req), req.desc)]
  {
    assert catalog[..n + 1][..n] == catalog[..n];
  }

  /** Catalog overlap and summary pruning. */
  method ShouldConsult(seg: Segment, req: Request) returns (yes: bool)
    ensures yes == Consulted(seg, req)
  {
    if !seg.meta.Overlaps(req.start, req.end) {
      return false;
    }
    yes := Q.MatchesSegment(seg.meta, req.expr);
  }

  /** Opens a consulted segment and keeps its cursor if it has a head. */
  method Consult(iters: seq<RecIter>, seg: Segment, req: Request, ghost lists: seq<seq<Record>>, ghost safe: bool) returns (more: seq<RecIter>)
    requires SegmentShape(seg) && Consulted(seg, req)
    requires Opened(iters, lists, safe)
    requires safe ==> forall b :: b in Traversal(seg, req) ==> b.readable
    ensures Kept(seg, req) ==> Opened(more, lists + [Contents(Traversal(seg, req), req.desc)], safe)
    ensures !Kept(seg, req) ==> Opened(more, lists, safe)
    ensures fresh(Objs(more) - Objs(iters))
  {
    hide Chosen, Contents, Consulted, ReverseBlocks, Directed;
    var it, found := OpenOne(seg, req);
    if !found {
      return iters;
    }
    OpenedAppend(iters, lists, Seg(it), Contents(Traversal(seg, req), req.desc), safe);
    more := iters + [Seg(it)];
  }

  lemma SafeToConsult(catalog: seq<Segment>, req: Request, n: nat)
    requires n < |catalog| && !Broken(catalog, req) && Consulted(catalog[n], req)
    ensures catalog[n].opens && forall b :: b in Traversal(catalog[n], req) ==> b.readable
  {
  }

  /** One round of the loop over the catalog. */
  method ConsultNth(iters: seq<RecIter>, catalog: seq<Segment>, n: nat, req: Request) returns (more: seq<RecIter>, ok: bool)
    requires n < |catalog| && SegmentShape(catalog[n])
    requires Opened(iters, KeptLists(catalog[..n], req), !Broken(catalog, req))
    ensures ok ==> Opened(more, KeptLists(catalog[..n + 1], req), !Broken(catalog, req))
    ensures fresh(Objs(more) - Objs(iters))
    ensures !Broken(catalog, req) ==> ok
  {
    hide Traversal, Contents, KeptLists;
    var seg := catalog[n];
    var yes := ShouldConsult(seg, req);
    if !yes {
      KeptSkip(catalog, req, n);
      return iters, true;
    }
    ghost var safe := !Broken(catalog, req);
    if safe { SafeToConsult(catalog, req, n); }
    if !seg.opens {
      return iters, false;
    }
    more := Consult(iters, seg, req, KeptLists(catalog[..n], req), safe);
    if Kept(seg, req) { KeptTake(catalog, req, n); } else { KeptSkip(catalog, req, n); }
    ok := true;
  }

  /** The cursors of the consulted segments, but for those without a head. */
  method OpenSegments(catalog: seq<Segment>, req: Request) returns (iters: seq<RecIter>, ok: bool)
    requires forall i :: 0 <= i < |catalog| ==> SegmentShape(catalog[i])
    ensures ok ==> Opened(iters, KeptLists(catalog, req), !Broken(catalog, req)) && fresh(Objs(iters))
    ensures !Broken(catalog, req) ==> ok
  {
    iters := [];
    for n := 0 to |catalog|
      invariant Opened(iters, KeptLists(catalog[..n], req), !Broken(catalog, req)) && fresh(Objs(iters))
    {
      iters, ok := ConsultNth(iters, catalog, n, req);
      if !ok {
        return;
      }
    }
    assert catalog[..|catalog|] == catalog;
    ok := true;
  }

  // ---- The merge ----

  /** Pops one cursor; the others do not change. */
  method PopAt(iters: seq<RecIter>, k: nat, ghost rests: seq<seq<Record>>, ghost desc: bool)
    requires Stand(iters, rests) && k < |iters| && iters[k].Ready() && rests[k] != []
    requires Sorted(rests[k], desc) && NotBefore(iters, rests, rests[k][0], desc)
    modifies Objs(iters)
    ensures Stand(iters, rests[k := rests[k][1..]])
    ensures old(AnyFailed(iters)) ==> AnyFailed(iters)
    ensures NotBefore(iters, rests[k := rests[k][1..]], rests[k][0], desc)
    ensures old(AllSafe(iters)) ==> AllSafe(iters)
  {
    hide Sorted;
    HeadFirst(rests[k], desc);
    assert iters[k].Obj() in Objs(iters);
    assert iters[k].Yields(rests[k]);
    iters[k].Pop(rests[k]);
    forall j | 0 <= j < |iters| && j != k
      ensures iters[j].Yields(rests[j]) && iters[j].Failed() == old(iters[j].Failed())
      ensures old(iters[j].Safe()) ==> iters[j].Safe()
    {
      assert iters[j].Obj() != iters[k].Obj();
      assert old(iters[j].Yields(rests[j]));
    }
  }

  lemma PopShortens(rests: seq<seq<Record>>, k: nat)
    requires k < |rests| && rests[k] != []
    ensures |Concat(rests[k := rests[k][1..]])| < |Concat(rests)|
  {
    HeadInConcat(rests, k);
  }

  /** What has been emitted is in order, and with what is wanted of the rest it
      makes up what is wanted of the lists. Without a failed read it makes up
      their sorted merge. */
  ghost predicate OnCourse(lib: Q.Library, req: Request, rests: seq<seq<Record>>, out: seq<Record>, prev: Option<Record>,
    lists: seq<seq<Record>>, live: bool)
  {
    && AllSorted(rests, req.desc)
    && multiset(out) + multiset(Filter(lib, req, Concat(rests))) == multiset(Filter(lib, req, Concat(lists)))
    && EndsBy(out, prev, req.desc)
    && (live ==> out + Filter(lib, req, StableSort(Concat(rests), req.desc)) == Filter(lib, req, StableSort(Concat(lists), req.desc)))
  }

  /** In order, and nothing sorts after prev. */
  ghost predicate EndsBy(out: seq<Record>, prev: Option<Record>, desc: bool) {
    Sorted(out, desc) && forall x :: x in out ==> prev.Some? && !Before(prev.value, x, desc)
  }

  lemma EndsByStep(out: seq<Record>, prev: Option<Record>, h: Record, desc: bool)
    requires EndsBy(out, prev, desc) && (prev.Some? ==> !Before(h, prev.value, desc))
    ensures EndsBy(out, Some(h), desc) && EndsBy(out + [h], Some(h), desc)
  {
    var more := out + [h];
    forall i, j | 0 <= i < j < |more| ensures !Before(more[j], more[i], desc) {
      assert more[i] == out[i] && out[i] in out;
    }
  }

  /** Popping a head takes one wanted record from what is to come, or none. */
  lemma PopFiltered(lib: Q.Library, req: Request, rests: seq<seq<Record>>, k: nat)
    requires k < |rests| && rests[k] != []
    ensures multiset(Filter(lib, req, Concat(rests)))
         == multiset(Filter(lib, req, Concat(rests[k := rests[k][1..]])))
            + if Wanted(lib, req, rests[k][0]) then multiset{rests[k][0]} else multiset{}
  {
    hide Wanted, Filter, Concat;
    var h, all, w := rests[k][0], Concat(rests), Width(rests, k);
    HeadInConcat(rests, k);
    var a, b := all[..w], all[w + 1..];
    assert all == a + ([h] + b);
    FilterConcat(lib, req, a, [h] + b);
    FilterConcat(lib, req, a, b);
    FilterCons(lib, req, h, b);
  }

  lemma OnCourseStart(lib: Q.Library, req: Request, lists: seq<seq<Record>>)
    requires AllSorted(lists, req.desc)
    ensures OnCourse(lib, req, lists, [], None, lists, true)
  {
    hide StableSort, Filter, Concat, AllSorted;
  }

  lemma OnCourseStep(lib: Q.Library, req: Request, rests: seq<seq<Record>>, k: nat, out: seq<Record>, prev: Option<Record>,
    lists: seq<seq<Record>>, before: bool, live: bool)
    requires OnCourse(lib, req, rests, out, prev, lists, before) && k < |rests| && rests[k] != []
    requires live ==> before && Best(rests, k, req.desc)
    requires prev.Some? ==> !Before(rests[k][0], prev.value, req.desc)
    ensures OnCourse(lib, req, rests[k := rests[k][1..]],
      if Wanted(lib, req, rests[k][0]) then out + [rests[k][0]] else out, Some(rests[k][0]), lists, live)
    ensures AllSorted(rests[k := rests[k][1..]], req.desc)
  {
    hide Wanted, Filter, Concat, StableSort, Sorted, EndsBy, Best, Before;
    PopFiltered(lib, req, rests, k);
    TailSorted(rests[k], req.desc);
    EndsByStep(out, prev, rests[k][0], req.desc);
    if live {
      MergeStep(rests, k, req.desc);
      FilterCons(lib, req, rests[k][0], StableSort(Concat(rests[k := rests[k][1..]]), req.desc));
    }
  }

  lemma OnCourseEnd(lib: Q.Library, req: Request, rests: seq<seq<Record>>, out: seq<Record>, prev: Option<Record>,
    lists: seq<seq<Record>>, live: bool)
    requires OnCourse(lib, req, rests, out, prev, lists, live)
    ensures Sorted(out, req.desc) && multiset(out) <= multiset(Filter(lib, req, Concat(lists)))
    ensures live ==> out <= Filter(lib, req, StableSort(Concat(lists), req.desc))
    ensures live && (forall j :: 0 <= j < |rests| ==> rests[j] == []) ==> out == Filter(lib, req, StableSort(Concat(lists), req.desc))
  {
    hide Sorted, AllSorted;
    if forall j :: 0 <= j < |rests| ==> rests[j] == [] { ConcatOfEmpty(rests); }
  }

  /** Reads and pops the leading cursor. */
  method TakeHead(iters: seq<RecIter>, k: nat, ghost rests: seq<seq<Record>>, ghost desc: bool) returns (rec: Option<Record>)
    requires Stand(iters, rests) && k < |iters| && iters[k].Ready() && rests[k] != []
    requires Sorted(rests[k], desc) && NotBefore(iters, rests, rests[k][0], desc)
    modifies Objs(iters)
    ensures rec == Some(rests[k][0])
    ensures Stand(iters, rests[k := rests[k][1..]])
    ensures old(AnyFailed(iters)) ==> AnyFailed(iters)
    ensures NotBefore(iters, rests[k := rests[k][1..]], rests[k][0], desc)
    ensures old(AllSafe(iters)) ==> AllSafe(iters)
  {
    rec := PeekAt(iters, k, rests);
    PopAt(iters, k, rests, desc);
  }

  /** One record of the merge: the best head, popped. */
  method NextRecord(iters: seq<RecIter>, desc: bool, ghost rests: seq<seq<Record>>, ghost prev: Option<Record>, ghost safe: bool)
    returns (rec: Option<Record>, ghost k: nat)
    requires Stand(iters, rests) && (safe ==> AllSafe(iters)) && AllSorted(rests, desc)
    requires prev.Some? ==> NotBefore(iters, rests, prev.value, desc)
    modifies Objs(iters)
    ensures safe ==> AllSafe(iters)
    ensures old(AnyFailed(iters)) ==> AnyFailed(iters)
    ensures rec.None? ==> Stand(iters, rests)
    ensures rec.None? && !AnyFailed(iters) ==> forall j :: 0 <= j < |rests| ==> rests[j] == []
    ensures rec.Some? ==> k < |rests| && rests[k] != [] && rec.value == rests[k][0] && Stand(iters, rests[k := rests[k][1..]])
    ensures rec.Some? && !AnyFailed(iters) ==> Best(rests, k, desc)
    ensures rec.Some? ==> NotBefore(iters, rests[k := rests[k][1..]], rec.value, desc)
    ensures rec.Some? && prev.Some? ==> !Before(rec.value, prev.value, desc)
  {
    hide AllSafe, Sorted;
    var best := PickNext(iters, desc, rests);
    if best.None? {
      return None, 0;
    }
    k := best.value;
    if prev.Some? {
      NotBeforeAt(iters, rests, k, prev.value, desc);
    }
    rec := TakeHead(iters, best.value, rests, desc);
  }

  lemma HeadFirst(rs: seq<Record>, desc: bool)
    requires Sorted(rs, desc) && rs != []
    ensures rs[1..] != [] ==> !Before(rs[1..][0], rs[0], desc)
  {
  }

  lemma SafeDoNotFail(iters: seq<RecIter>, rests: seq<seq<Record>>)
    requires Stand(iters, rests) && AllSafe(iters)
    ensures !AnyFailed(iters)
  {
  }

  /** Whether every cursor got through without a failed read. */
  method NoneFailed(iters: seq<RecIter>) returns (ok: bool)
    ensures ok <==> !AnyFailed(iters)
  {
    for i := 0 to |iters|
      invariant forall j :: 0 <= j < i ==> !iters[j].Failed()
    {
      if iters[i].Failed() {
        return false;
      }
    }
    ok := true;
  }

  /** Merges the cursors and emits what is wanted, up to the limit. */
  method Drain(iters: seq<RecIter>, req: Request, lib: Q.Library, ghost lists: seq<seq<Record>>, ghost safe: bool)
    returns (out: seq<Record>, ok: bool)
    requires Opened(iters, lists, safe) && AllSorted(lists, req.desc)
    modifies Objs(iters)
    ensures ok ==> out == Limited(Filter(lib, req, StableSort(Concat(lists), req.desc)), req.limit)
    ensures safe ==> ok
    ensures Sorted(out, req.desc) && multiset(out) <= multiset(Filter(lib, req, Concat(lists)))
  {
    hide StableSort, Filter, Concat, Best, Stand, AllSafe, AnyFailed, NotBefore, Sorted, AllSorted, OnCourse;
    out := [];
    ghost var rests, prev, live := lists, None, true;
    OnCourseStart(lib, req, lists);
    while true
      invariant Stand(iters, rests) && (safe ==> AllSafe(iters)) && (!AnyFailed(iters) ==> live)
      invariant OnCourse(lib, req, rests, out, prev, lists, live) && AllSorted(rests, req.desc)
      invariant prev.Some? ==> NotBefore(iters, rests, prev.value, req.desc)
      invariant req.limit > 0 ==> |out| < req.limit
      decreases |Concat(rests)|
    {
      ghost var k;
      var next;
      next, k := NextRecord(iters, req.desc, rests, prev, safe);
      if next.None? {
        break;
      }
      PopShortens(rests, k);
      OnCourseStep(lib, req, rests, k, out, prev, lists, live, !AnyFailed(iters));
      rests, prev, live := rests[k := rests[k][1..]], next, !AnyFailed(iters);
      if !InRange(next.value.timestamp, req.start, req.end) {
        continue;
      }
      if !Q.Match(lib, req.expr, next.value) {
        continue;
      }
      out := out + [next.value];
      if req.limit > 0 && |out| >= req.limit {
        break;
      }
    }
    OnCourseEnd(lib, req, rests, out, prev, lists, live);
    if safe { SafeDoNotFail(iters, rests); }
    ok := NoneFailed(iters);
  }

  /** The cursors merge into the naive answer over what is read. */
  lemma MergeIsNaive(lib: Q.Library, req: Request, catalog: seq<Segment>, open: seq<Record>, lists: seq<seq<Record>>)
    requires forall i :: 0 <= i < |catalog| ==> SegmentShape(catalog[i])
    requires Sorted(open, false)
    requires lists == KeptLists(catalog, req) + if open == [] then [] else [Directed(open, req.desc)]
    ensures AllSorted(lists, req.desc)
    ensures Limited(Filter(lib, req, StableSort(Concat(lists), req.desc)), req.limit) == Naive(lib, req, ReadLists(catalog, open, req))
    ensures Filter(lib, req, Concat(lists)) == Filter(lib, req, Concat(ReadLists(catalog, open, req)))
  {
    hide Filter, StableSort, Sorted, SegmentShape, KeptLists;
    KeptSorted(catalog, req);
    var kept, last := KeptLists(catalog, req), Directed(open, req.desc);
    ConcatSnoc(kept, last);
    if open == [] {
      assert last == [] && lists == kept && Concat(kept) + [] == Concat(kept);
    }
    FilterSort(lib, req, Concat(lists), req.desc);
    DirectedSorted(open, req.desc);
  }

  /** What good bounds and summaries leave out, the query does not want. */
  lemma AnswerIsNaive(lib: Q.Library, req: Request, catalog: seq<Segment>, open: seq<Record>)
    requires forall i :: 0 <= i < |catalog| ==> SegmentOk(catalog[i])
    ensures Naive(lib, req, ReadLists(catalog, open, req)) == Naive(lib, req, Lists(catalog, open, req))
  {
    hide Filter, StableSort, Concat, SegmentOk, KeptLists, FullLists;
    KeptSuffice(lib, req, catalog);
    var kept, full, last := KeptLists(catalog, req), FullLists(catalog, req), Directed(open, req.desc);
    ConcatSnoc(kept, last);
    ConcatSnoc(full, last);
    FilterConcat(lib, req, Concat(kept), last);
    FilterConcat(lib, req, Concat(full), last);
  }

  /** Adds the cursor over the open buffer, if there is anything in it. */
  method OpenBuffer(iters: seq<RecIter>, open: seq<Record>, desc: bool, ghost lists: seq<seq<Record>>, ghost safe: bool)
    returns (more: seq<RecIter>)
    requires Opened(iters, lists, safe)
    ensures Opened(more, lists + if open == [] then [] else [Directed(open, desc)], safe)
    ensures fresh(Objs(more) - Objs(iters))
  {
    if |open| == 0 {
      assert lists + [] == lists;
      return iters;
    }
    var si := new SliceIter(open, desc);
    OpenedAppend(iters, lists, Slice(si), Directed(open, desc), safe);
    more := iters + [Slice(si)];
  }

  // ---- What the answer covers ----

  /** Everything there is: every segment, then the open buffer. */
  function AllLists(catalog: seq<Segment>, open: seq<Record>, req: Request): seq<seq<Record>> {
    EveryList(catalog, req) + [Directed(open, req.desc)]
  }

  function EveryList(catalog: seq<Segment>, req: Request): seq<seq<Record>> {
    if catalog == [] then []
    else EveryList(catalog[..|catalog| - 1], req) + [Directed(AllRecs(catalog[|catalog| - 1].blocks), req.desc)]
  }

  /** No block that is not read holds a wanted record. */
  predicate NothingLost(lib: Q.Library, req: Request, catalog: seq<Segment>) {
    forall i :: 0 <= i < |catalog| ==> LosesNothing(lib, req, catalog[i])
  }

  lemma NothingLostLast(lib: Q.Library, req: Request, catalog: seq<Segment>)
    requires catalog != []
    ensures NothingLost(lib, req, catalog) <==>
      NothingLost(lib, req, catalog[..|catalog| - 1]) && LosesNothing(lib, req, catalog[|catalog| - 1])
  {
    hide LosesNothing;
    var front := catalog[..|catalog| - 1];
    forall i | 0 <= i < |front| ensures front[i] == catalog[i] {}
  }

  /** What is read has the wanted records exactly when no block that is not read
      holds any, and otherwise there are fewer. */
  lemma {:induction false} CoversIff(lib: Q.Library, req: Request, catalog: seq<Segment>)
    ensures var some, all := Filter(lib, req, Concat(KeptLists(catalog, req))), Filter(lib, req, Concat(EveryList(catalog, req)));
      && multiset(some) <= multiset(all) && |some| <= |all|
      && (NothingLost(lib, req, catalog) ==> some == all)
      && (|some| == |all| ==> NothingLost(lib, req, catalog))
  {
    hide Kept, Filter, Concat, NothingLost, LosesNothing, Directed, Contents, Traversal, AllRecs;
    if catalog == [] {
      NothingToLose(lib, req);
    } else {
      var front, last := catalog[..|catalog| - 1], catalog[|catalog| - 1];
      var read, recs := Contents(Traversal(last, req), req.desc), Directed(AllRecs(last.blocks), req.desc);
      var some, all := KeptLists(front, req), EveryList(front, req);
      CoversIff(lib, req, front);
      NothingLostLast(lib, req, catalog);
      SegmentReadsIff(lib, req, last);
      ConcatMore(some, Kept(last, req), read);
      ConcatSnoc(all, recs);
      FilterConcat(lib, req, Concat(some), if Kept(last, req) then read else []);
      FilterConcat(lib, req, Concat(all), recs);
    }
  }

  lemma NothingToLose(lib: Q.Library, req: Request)
    ensures NothingLost(lib, req, [])
  {
  }

  /** The answer over what is read is the answer over everything if nothing wanted
      is in the rest; an unlimited answer is so exactly then. */
  lemma AnswerCoversIff(lib: Q.Library, req: Request, catalog: seq<Segment>, open: seq<Record>)
    ensures var some, all := Naive(lib, req, ReadLists(catalog, open, req)), Naive(lib, req, AllLists(catalog, open, req));
      && (NothingLost(lib, req, catalog) ==> some == all)
      && (req.limit <= 0 && some == all ==> NothingLost(lib, req, catalog))
    ensures multiset(Filter(lib, req, Concat(ReadLists(catalog, open, req)))) <= multiset(Filter(lib, req, Concat(AllLists(catalog, open, req))))
  {
    hide Filter, Concat, StableSort, NothingLost, KeptLists, EveryList;
    var some, all, last := KeptLists(catalog, req), EveryList(catalog, req), Directed(open, req.desc);
    CoversIff(lib, req, catalog);
    ConcatSnoc(some, last);
    ConcatSnoc(all, last);
    FilterConcat(lib, req, Concat(some), last);
    FilterConcat(lib, req, Concat(all), last);
    SortedLength(Filter(lib, req, Concat(some + [last])), req.desc);
    SortedLength(Filter(lib, req, Concat(all + [last])), req.desc);
  }

  lemma SortedLength(xs: seq<Record>, desc: bool)
    ensures |StableSort(xs, desc)| == |xs|
  {
    SortSorts(xs, desc);
    assert |multiset(StableSort(xs, desc))| == |multiset(xs)|;
  }

  lemma NothingEmitted(lib: Q.Library, req: Request, lists: seq<seq<Record>>)
    ensures Sorted([], req.desc) && multiset([]) <= multiset(Filter(lib, req, Concat(lists)))
  {
  }

  lemma SilentIsBroken(catalog: seq<Segment>, req: Request, n: nat)
    requires n < |catalog|
    ensures Silent(catalog[n], req) ==> Broken(catalog, req)
  {
    var t := Traversal(catalog[n], req);
    assert t != [] ==> t[0] in t;
  }

  /** Over good segments only those that fail silently lose anything. */
  lemma GoodNothingLostIff(lib: Q.Library, req: Request, catalog: seq<Segment>)
    requires forall i :: 0 <= i < |catalog| ==> SegmentOk(catalog[i])
    ensures NothingLost(lib, req, catalog) <==>
      forall i :: 0 <= i < |catalog| && Silent(catalog[i], req) ==> NoneWanted(lib, req, AllRecs(catalog[i].blocks))
  {
    hide SegmentOk, LosesNothing, Silent, NoneWanted, AllRecs;
    forall i | 0 <= i < |catalog|
      ensures LosesNothing(lib, req, catalog[i]) <==> (Silent(catalog[i], req) ==> NoneWanted(lib, req, AllRecs(catalog[i].blocks)))
    {
      GoodLosesIff(lib, req, catalog[i]);
    }
  }

  /** With nothing broken good segments lose nothing. */
  lemma NothingSilent(lib: Q.Library, req: Request, catalog: seq<Segment>)
    requires !Broken(catalog, req) && forall i :: 0 <= i < |catalog| ==> SegmentOk(catalog[i])
    ensures NothingLost(lib, req, catalog)
  {
    hide SegmentOk, NothingLost, Silent, Broken;
    GoodNothingLostIff(lib, req, catalog);
    forall i | 0 <= i < |catalog| ensures !Silent(catalog[i], req) {
      SilentIsBroken(catalog, req, i);
    }
  }

  // ---- Run ----

  /** Run answers with the naive query over the open buffer and the blocks it
      reads, once it succeeds. That is the naive query over everything exactly if
      no block it does not read holds something wanted, and with good bounds and
      summaries only silent segments can. Whatever fails, it emits wanted records
      in order and none twice; with nothing broken it does not fail. */
  method Run(lib: Q.Library, req: Request, catalog: seq<Segment>, open: seq<Record>) returns (out: seq<Record>, ok: bool)
    requires forall i :: 0 <= i < |catalog| ==> SegmentShape(catalog[i])
    requires Sorted(open, false)
    ensures ok ==> out == Naive(lib, req, ReadLists(catalog, open, req))
    ensures ok && NothingLost(lib, req, catalog) ==> out == Naive(lib, req, AllLists(catalog, open, req))
    ensures ok && req.limit <= 0 && out == Naive(lib, req, AllLists(catalog, open, req)) ==> NothingLost(lib, req, catalog)
    ensures ok && (forall i :: 0 <= i < |catalog| ==> SegmentOk(catalog[i])) ==> out == Naive(lib, req, Lists(catalog, open, req))
    ensures !Broken(catalog, req) ==> ok
    ensures Sorted(out, req.desc) && multiset(out) <= multiset(Filter(lib, req, Concat(AllLists(catalog, open, req))))
  {
    hide Sorted, Naive, Concat, NothingLost, KeptLists, Filter, AllLists, Lists, ReadLists, SegmentShape, SegmentOk;
    var iters;
    iters, ok := OpenSegments(catalog, req);
    NothingEmitted(lib, req, AllLists(catalog, open, req));
    if !ok {
      return [], false;
    }
    ghost var lists := KeptLists(catalog, req);
    ghost var safe := !Broken(catalog, req);
    iters := OpenBuffer(iters, open, req.desc, lists, safe);
    lists := lists + if open == [] then [] else [Directed(open, req.desc)];
    MergeIsNaive(lib, req, catalog, open, lists);
    AnswerCoversIff(lib, req, catalog, open);
    if forall i :: 0 <= i < |catalog| ==> SegmentOk(catalog[i]) { AnswerIsNaive(lib, req, catalog, open); }
    out, ok := Drain(iters, req, lib, lists, safe);
  }
}
