/**
  Sorting records by timestamp. `StableSort` is the reference order of query
  results; `SortSlice` is the unstable library sort the spool calls.
 */
module TimeOrder {
  import opened Model

  /** a sorts strictly before b: earlier, or later when descending. */
  predicate Before(a: Record, b: Record, desc: bool) {
    if desc then a.timestamp > b.timestamp else a.timestamp < b.timestamp
  }

  predicate Sorted(xs: seq<Record>, desc: bool) {
    forall i, j :: 0 <= i < j < |xs| ==> !Before(xs[j], xs[i], desc)
  }

  /** Puts x in front of the first element that does not sort strictly before it. */
  function Insert(x: Record, xs: seq<Record>, desc: bool): seq<Record> {
    if xs == [] || !Before(xs[0], x, desc) then [x] + xs
    else [xs[0]] + Insert(x, xs[1..], desc)
  }

  function StableSort(xs: seq<Record>, desc: bool): seq<Record> {
    if xs == [] then [] else Insert(xs[0], StableSort(xs[1..], desc), desc)
  }

  lemma SortedCons(x: Record, xs: seq<Record>, desc: bool)
    requires Sorted(xs, desc) && forall y :: y in xs ==> !Before(y, x, desc)
    ensures Sorted([x] + xs, desc)
  {
    var r := [x] + xs;
    forall i, j | 0 <= i < j < |r| ensures !Before(r[j], r[i], desc) {
      assert r[j] == xs[j - 1] && xs[j - 1] in xs;
    }
  }

  lemma {:induction false} InsertSorts(x: Record, xs: seq<Record>, desc: bool)
    requires Sorted(xs, desc)
    ensures Sorted(Insert(x, xs, desc), desc)
    ensures multiset(Insert(x, xs, desc)) == multiset{x} + multiset(xs)
  {
    if xs == [] || !Before(xs[0], x, desc) {
      forall y | y in xs ensures !Before(y, x, desc) {
        var k :| 0 <= k < |xs| && xs[k] == y;
        if k > 0 { assert !Before(xs[k], xs[0], desc); }
      }
      SortedCons(x, xs, desc);
    } else {
      var tail := Insert(x, xs[1..], desc);
      InsertSorts(x, xs[1..], desc);
      assert xs == [xs[0]] + xs[1..];
      forall y | y in tail ensures !Before(y, xs[0], desc) {
        assert y in multiset(tail);
        assert y == x || y in xs[1..];
      }
      SortedCons(xs[0], tail, desc);
    }
  }

  /** StableSort returns the same records in order. */
  lemma {:induction false} SortSorts(xs: seq<Record>, desc: bool)
    ensures Sorted(StableSort(xs, desc), desc)
    ensures multiset(StableSort(xs, desc)) == multiset(xs)
  {
    if xs == [] {
    } else {
      SortSorts(xs[1..], desc);
      InsertSorts(xs[0], StableSort(xs[1..], desc), desc);
      assert xs == [xs[0]] + xs[1..];
    }
  }

  /** Records that compare equal to x keep their relative order. */
  function Ties(xs: seq<Record>, x: Record, desc: bool): seq<Record> {
    if xs == [] then []
    else (if !Before(xs[0], x, desc) && !Before(x, xs[0], desc) then [xs[0]] else []) + Ties(xs[1..], x, desc)
  }

  lemma {:induction false} InsertTies(y: Record, xs: seq<Record>, x: Record, desc: bool)
    ensures Ties(Insert(y, xs, desc), x, desc) == Ties([y] + xs, x, desc)
  {
    if xs == [] || !Before(xs[0], y, desc) {
    } else {
      InsertTies(y, xs[1..], x, desc);
      var r := [xs[0]] + Insert(y, xs[1..], desc);
      assert r[1..] == Insert(y, xs[1..], desc);
      assert ([y] + xs)[1..] == xs;
      assert ([y] + xs[1..])[1..] == xs[1..];
    }
  }

  /** StableSort is stable. */
  lemma {:induction false} SortIsStable(xs: seq<Record>, x: Record, desc: bool)
    ensures Ties(StableSort(xs, desc), x, desc) == Ties(xs, x, desc)
  {
    if xs == [] {
    } else {
      SortIsStable(xs[1..], x, desc);
      InsertTies(xs[0], StableSort(xs[1..], desc), x, desc);
      assert ([xs[0]] + StableSort(xs[1..], desc))[1..] == StableSort(xs[1..], desc);
    }
  }

  /** m is the first position holding a record no other sorts strictly before. */
  ghost predicate FirstMin(xs: seq<Record>, m: nat, desc: bool) {
    && m < |xs|
    && (forall i :: 0 <= i < m ==> Before(xs[m], xs[i], desc))
    && (forall i :: m <= i < |xs| ==> !Before(xs[i], xs[m], desc))
  }

  lemma FirstMinTail(xs: seq<Record>, m: nat, desc: bool)
    requires FirstMin(xs, m, desc) && 0 < m
    ensures FirstMin(xs[1..], m - 1, desc)
  {
    var ys := xs[1..];
    forall i | 0 <= i < m - 1 ensures Before(ys[m - 1], ys[i], desc) {
      assert ys[i] == xs[i + 1];
    }
    forall i | m - 1 <= i < |ys| ensures !Before(ys[i], ys[m - 1], desc) {
      assert ys[i] == xs[i + 1];
    }
  }

  lemma SortSelectsHead(xs: seq<Record>, desc: bool)
    requires FirstMin(xs, 0, desc)
    ensures StableSort(xs, desc) == [xs[0]] + StableSort(xs[1..], desc)
  {
    var tail := StableSort(xs[1..], desc);
    SortSorts(xs[1..], desc);
    if tail != [] {
      assert tail[0] in multiset(tail);
      var k :| 0 <= k < |xs[1..]| && xs[1..][k] == tail[0];
      assert xs[k + 1] == tail[0];
    }
  }

  /** Selection: a stable sort starts with the first minimum and goes on with
      the stable sort of the rest. */
  lemma {:induction false} SortSelects(xs: seq<Record>, m: nat, desc: bool)
    requires FirstMin(xs, m, desc)
    ensures StableSort(xs, desc) == [xs[m]] + StableSort(xs[..m] + xs[m + 1..], desc)
    decreases m
  {
    if m == 0 {
      SortSelectsHead(xs, desc);
      assert xs[..0] + xs[1..] == xs[1..];
    } else {
      var ys := xs[1..];
      FirstMinTail(xs, m, desc);
      SortSelects(ys, m - 1, desc);
      var rest := ys[..m - 1] + ys[m..];
      assert ys[m - 1] == xs[m];
      InsertPast(xs[0], xs[m], StableSort(rest, desc), desc);
      ConsSort(xs[0], rest, desc);
      assert xs[..m] + xs[m + 1..] == [xs[0]] + rest;
      assert xs == [xs[0]] + ys;
      ConsSort(xs[0], ys, desc);
    }
  }

  lemma InsertPast(x: Record, y: Record, ys: seq<Record>, desc: bool)
    requires Before(y, x, desc)
    ensures Insert(x, [y] + ys, desc) == [y] + Insert(x, ys, desc)
  {
    assert ([y] + ys)[1..] == ys;
  }

  lemma ConsSort(x: Record, xs: seq<Record>, desc: bool)
    ensures StableSort([x] + xs, desc) == Insert(x, StableSort(xs, desc), desc)
  {
    assert ([x] + xs)[1..] == xs;
  }

  /** The library sort: any ascending permutation. */
  method SortSlice(xs: seq<Record>) returns (ys: seq<Record>)
    ensures Sorted(ys, false)
    ensures multiset(ys) == multiset(xs)
  {
    ys := StableSort(xs, false);
    SortSorts(xs, false);
  }
}
