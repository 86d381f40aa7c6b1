/**
  The reference answer of a query, and why merging sorted cursors by their first
  minimum computes it.
 */
module Merge {
  import opened Model
  import opened RecordLists
  import opened TimeOrder
  import Q = Query

  datatype Request = Request(expr: Q.Node, start: Time, end: Time, limit: int, desc: bool)

  predicate Wanted(lib: Q.Library, req: Request, r: Record) {
    InRange(r.timestamp, req.start, req.end) && Q.Match(lib, req.expr, r)
  }

  function Filter(lib: Q.Library, req: Request, rs: seq<Record>): seq<Record> {
    if rs == [] then []
    else (if Wanted(lib, req, rs[0]) then [rs[0]] else []) + Filter(lib, req, rs[1..])
  }

  function Limited(rs: seq<Record>, limit: int): seq<Record> {
    if 0 < limit < |rs| then rs[..limit] else rs
  }

  function Reverse(rs: seq<Record>): seq<Record> {
    if rs == [] then [] else Reverse(rs[1..]) + [rs[0]]
  }

  function Directed(rs: seq<Record>, desc: bool): seq<Record> {
    if desc then Reverse(rs) else rs
  }

  /** Filter everything, sort stably, take the first `limit`. `lists` are the
      segments in catalog order and then the open buffer, each as it is read. */
  function Naive(lib: Q.Library, req: Request, lists: seq<seq<Record>>): seq<Record> {
    Limited(StableSort(Filter(lib, req, Concat(lists)), req.desc), req.limit)
  }

  // ---- Filtering ----

  lemma {:induction false} FilterConcat(lib: Q.Library, req: Request, a: seq<Record>, b: seq<Record>)
    ensures Filter(lib, req, a + b) == Filter(lib, req, a) + Filter(lib, req, b)
  {
    if a == [] {
      assert a + b == b;
    } else {
      assert (a + b)[1..] == a[1..] + b;
      FilterConcat(lib, req, a[1..], b);
    }
  }

  lemma {:induction false} FilterNone(lib: Q.Library, req: Request, rs: seq<Record>)
    requires forall r :: r in rs ==> !Wanted(lib, req, r)
    ensures Filter(lib, req, rs) == []
  {
    if rs != [] {
      FilterNone(lib, req, rs[1..]);
    }
  }

  lemma FilterInsertFront(lib: Q.Library, req: Request, x: Record, xs: seq<Record>, desc: bool)
    requires Sorted(xs, desc) && (xs != [] ==> !Before(xs[0], x, desc))
    ensures Filter(lib, req, Insert(x, xs, desc))
         == if Wanted(lib, req, x) then Insert(x, Filter(lib, req, xs), desc) else Filter(lib, req, xs)
  {
    hide Wanted, Filter;
    var fx := Filter(lib, req, xs);
    FilterCons(lib, req, x, xs);
    if fx != [] {
      FilterMembers(lib, req, xs);
      assert fx[0] in fx;
      var k :| 0 <= k < |xs| && xs[k] == fx[0];
      assert k > 0 ==> !Before(xs[k], xs[0], desc);
    }
  }

  lemma {:induction false} FilterInsert(lib: Q.Library, req: Request, x: Record, xs: seq<Record>, desc: bool)
    requires Sorted(xs, desc)
    ensures Filter(lib, req, Insert(x, xs, desc))
         == if Wanted(lib, req, x) then Insert(x, Filter(lib, req, xs), desc) else Filter(lib, req, xs)
  {
    hide Wanted, Filter;
    if xs == [] || !Before(xs[0], x, desc) {
      FilterInsertFront(lib, req, x, xs, desc);
    } else {
      FilterInsert(lib, req, x, xs[1..], desc);
      FilterCons(lib, req, xs[0], Insert(x, xs[1..], desc));
      FilterCons(lib, req, xs[0], xs[1..]);
      assert xs == [xs[0]] + xs[1..];
      if Wanted(lib, req, xs[0]) && Wanted(lib, req, x) {
        InsertPast(x, xs[0], Filter(lib, req, xs[1..]), desc);
      }
    }
  }

  lemma FilterCons(lib: Q.Library, req: Request, x: Record, xs: seq<Record>)
    ensures Filter(lib, req, [x] + xs) == if Wanted(lib, req, x) then [x] + Filter(lib, req, xs) else Filter(lib, req, xs)
  {
    assert ([x] + xs)[1..] == xs;
  }

  lemma {:induction false} FilterMembers(lib: Q.Library, req: Request, xs: seq<Record>)
    ensures forall r :: r in Filter(lib, req, xs) <==> r in xs && Wanted(lib, req, r)
  {
    if xs != [] {
      FilterMembers(lib, req, xs[1..]);
      assert xs == [xs[0]] + xs[1..];
    }
  }

  /** Filtering and stable sorting commute. */
  lemma {:induction false} FilterSort(lib: Q.Library, req: Request, xs: seq<Record>, desc: bool)
    ensures Filter(lib, req, StableSort(xs, desc)) == StableSort(Filter(lib, req, xs), desc)
  {
    if xs == [] {
    } else {
      var x, tail := xs[0], xs[1..];
      FilterSort(lib, req, tail, desc);
      SortSorts(tail, desc);
      FilterInsert(lib, req, x, StableSort(tail, desc), desc);
      FilterCons(lib, req, x, tail);
      ConsSort(x, tail, desc);
      ConsSort(x, Filter(lib, req, tail), desc);
      assert xs == [x] + tail;
    }
  }

  // ---- Merging ----

  /** k is the first cursor no other cursor's head sorts before. */
  ghost predicate Best(rests: seq<seq<Record>>, k: nat, desc: bool) {
    && k < |rests| && rests[k] != []
    && (forall j :: 0 <= j < k && rests[j] != [] ==> Before(rests[k][0], rests[j][0], desc))
    && (forall j :: k <= j < |rests| && rests[j] != [] ==> !Before(rests[j][0], rests[k][0], desc))
  }

  ghost predicate AllSorted(rests: seq<seq<Record>>, desc: bool) {
    forall j :: 0 <= j < |rests| ==> Sorted(rests[j], desc)
  }

  function Width(rests: seq<seq<Record>>, k: nat): nat
    requires k <= |rests|
  {
    if k == 0 then 0 else |rests[0]| + Width(rests[1..], k - 1)
  }

  /** Where the head of cursor k stands in the concatenation. */
  lemma {:induction false} HeadInConcat(rests: seq<seq<Record>>, k: nat)
    requires k < |rests| && rests[k] != []
    ensures
      var w := Width(rests, k);
      var all := Concat(rests);
      && w < |all| && all[w] == rests[k][0]
      && all[..w] + all[w + 1..] == Concat(rests[k := rests[k][1..]])
  {
    var all := Concat(rests);
    if k == 0 {
      assert all == [rests[0][0]] + (rests[0][1..] + Concat(rests[1..]));
      assert rests[0 := rests[0][1..]][1..] == rests[1..];
    } else {
      HeadInConcat(rests[1..], k - 1);
      var w, tail := Width(rests[1..], k - 1), Concat(rests[1..]);
      assert rests[k := rests[k][1..]][1..] == rests[1..][k - 1 := rests[1..][k - 1][1..]];
      SplitAfter(rests[0], tail, w);
    }
  }

  lemma SplitAfter(a: seq<Record>, b: seq<Record>, w: nat)
    requires w < |b|
    ensures (a + b)[|a| + w] == b[w]
    ensures (a + b)[..|a| + w] + (a + b)[|a| + w + 1..] == a + (b[..w] + b[w + 1..])
  {
  }

  /** Each position of the concatenation lies in one cursor, at or after its head. */
  lemma {:induction false} InSomeRest(rests: seq<seq<Record>>, i: nat) returns (j: nat, m: nat)
    requires i < |Concat(rests)|
    ensures j < |rests| && m < |rests[j]| && rests[j][m] == Concat(rests)[i]
    ensures forall k :: 0 <= k <= |rests| ==> (i < Width(rests, k) <==> j < k)
  {
    if i < |rests[0]| {
      j, m := 0, i;
    } else {
      var j0;
      j0, m := InSomeRest(rests[1..], i - |rests[0]|);
      j := j0 + 1;
      forall k | 0 <= k <= |rests| ensures i < Width(rests, k) <==> j < k {
        if k > 0 {
          assert i - |rests[0]| < Width(rests[1..], k - 1) <==> j0 < k - 1;
        }
      }
    }
  }

  lemma BestIsFirstMin(rests: seq<seq<Record>>, k: nat, desc: bool)
    requires Best(rests, k, desc) && AllSorted(rests, desc)
    ensures Width(rests, k) < |Concat(rests)| && FirstMin(Concat(rests), Width(rests, k), desc)
  {
    HeadInConcat(rests, k);
    var all, w := Concat(rests), Width(rests, k);
    forall i | 0 <= i < |all| ensures if i < w then Before(all[w], all[i], desc) else !Before(all[i], all[w], desc) {
      var j, m := InSomeRest(rests, i);
      assert Sorted(rests[j], desc);
      if m > 0 { assert !Before(rests[j][m], rests[j][0], desc); }
      assert rests[j] != [];
    }
  }

  /** One step of the merge: the best head is the first record of the sorted
      rest, and popping it leaves the sorted rest of that. */
  lemma MergeStep(rests: seq<seq<Record>>, k: nat, desc: bool)
    requires Best(rests, k, desc) && AllSorted(rests, desc)
    ensures StableSort(Concat(rests), desc)
         == [rests[k][0]] + StableSort(Concat(rests[k := rests[k][1..]]), desc)
    ensures AllSorted(rests[k := rests[k][1..]], desc)
  {
    BestIsFirstMin(rests, k, desc);
    HeadInConcat(rests, k);
    SortSelects(Concat(rests), Width(rests, k), desc);
    TailSorted(rests[k], desc);
  }

  lemma TailSorted(rs: seq<Record>, desc: bool)
    requires Sorted(rs, desc) && rs != []
    ensures Sorted(rs[1..], desc)
  {
    forall i, j | 0 <= i < j < |rs[1..]| ensures !Before(rs[1..][j], rs[1..][i], desc) {
      assert rs[1..][j] == rs[j + 1] && rs[1..][i] == rs[i + 1];
    }
  }

  lemma {:induction false} ConcatOfEmpty(rests: seq<seq<Record>>)
    requires forall j :: 0 <= j < |rests| ==> rests[j] == []
    ensures Concat(rests) == []
  {
    if rests != [] {
      ConcatOfEmpty(rests[1..]);
    }
  }

  // ---- Reversal ----

  lemma {:induction false} ReverseConcat(a: seq<Record>, b: seq<Record>)
    ensures Reverse(a + b) == Reverse(b) + Reverse(a)
  {
    if a == [] {
      assert a + b == b && Reverse(b) + [] == Reverse(b);
    } else {
      assert (a + b)[1..] == a[1..] + b;
      ReverseConcat(a[1..], b);
    }
  }

  lemma {:induction false} ReverseAt(rs: seq<Record>)
    ensures |Reverse(rs)| == |rs|
    ensures forall i :: 0 <= i < |rs| ==> Reverse(rs)[i] == rs[|rs| - 1 - i]
  {
    if rs != [] {
      ReverseAt(rs[1..]);
    }
  }

  lemma DirectedSorted(rs: seq<Record>, desc: bool)
    requires Sorted(rs, false)
    ensures Sorted(Directed(rs, desc), desc)
  {
    if desc {
      ReverseAt(rs);
      var t := Reverse(rs);
      forall i, j | 0 <= i < j < |t| ensures !Before(t[j], t[i], desc) {
        assert t[j] == rs[|rs| - 1 - j] && t[i] == rs[|rs| - 1 - i];
        assert !Before(rs[|rs| - 1 - i], rs[|rs| - 1 - j], false);
      }
    }
  }
}
