/**
  The local segment cache (internal/store/cache.go), least recently used first
  out by bytes, and reading segments through it (internal/store/store.go:149-192).
 */
module Cache {
  import opened Model

  /** Sizes by segment id. */
  type Sizes = map<string, nat>

  function SizeOf(items: Sizes, id: string): nat {
    if id in items then items[id] else 0
  }

  function Total(order: seq<string>, items: Sizes): nat {
    if order == [] then 0 else SizeOf(items, order[0]) + Total(order[1..], items)
  }

  function Without(order: seq<string>, id: string): seq<string> {
    if order == [] then []
    else (if order[0] == id then [] else [order[0]]) + Without(order[1..], id)
  }

  /** What eviction from the back leaves. */
  function Evicted(order: seq<string>, items: Sizes, cap: int): (kept: seq<string>)
    ensures kept <= order
  {
    if order == [] || Total(order, items) <= cap then order else Evicted(order[..|order| - 1], items, cap)
  }

  predicate Distinct(order: seq<string>) {
    forall i, j :: 0 <= i < j < |order| ==> order[i] != order[j]
  }

  // ---- Facts about orders ----

  lemma {:induction false} TotalSnoc(order: seq<string>, id: string, items: Sizes)
    ensures Total(order + [id], items) == Total(order, items) + SizeOf(items, id)
  {
    if order == [] {
      assert [id][1..] == [];
    } else {
      TotalSnoc(order[1..], id, items);
      assert (order + [id])[1..] == order[1..] + [id];
    }
  }

  lemma TotalCons(id: string, order: seq<string>, items: Sizes)
    ensures Total([id] + order, items) == SizeOf(items, id) + Total(order, items)
  {
    assert ([id] + order)[1..] == order;
  }

  lemma {:induction false} TotalSame(order: seq<string>, a: Sizes, b: Sizes)
    requires forall i :: 0 <= i < |order| ==> SizeOf(a, order[i]) == SizeOf(b, order[i])
    ensures Total(order, a) == Total(order, b)
  {
    if order != [] {
      TotalSame(order[1..], a, b);
    }
  }

  lemma {:induction false} WithoutMembers(order: seq<string>, id: string)
    ensures forall x :: x in Without(order, id) <==> x in order && x != id
  {
    if order != [] {
      WithoutMembers(order[1..], id);
      assert order == [order[0]] + order[1..];
    }
  }

  lemma {:induction false} WithoutKeeps(order: seq<string>, id: string, items: Sizes)
    requires Distinct(order)
    ensures Distinct(Without(order, id))
    ensures Total(order, items) == Total(Without(order, id), items) + if id in order then SizeOf(items, id) else 0
  {
    if order != [] {
      var rest := order[1..];
      WithoutKeeps(rest, id, items);
      WithoutMembers(rest, id);
      assert order == [order[0]] + rest;
      if order[0] == id {
        assert id !in rest;
        WithoutAbsent(rest, id);
        assert Without(order, id) == rest;
      } else {
        DistinctCons(order[0], Without(rest, id));
        assert ([order[0]] + Without(rest, id))[1..] == Without(rest, id);
      }
    }
  }

  lemma {:induction false} WithoutAbsent(order: seq<string>, id: string)
    requires id !in order
    ensures Without(order, id) == order
  {
    if order != [] {
      WithoutAbsent(order[1..], id);
      assert order == [order[0]] + order[1..];
    }
  }

  lemma DistinctCons(id: string, order: seq<string>)
    requires Distinct(order) && id !in order
    ensures Distinct([id] + order)
  {
  }

  lemma {:induction false} TotalOfPrefix(order: seq<string>, items: Sizes, m: nat, n: nat)
    requires m <= n <= |order|
    ensures Total(order[..m], items) <= Total(order[..n], items)
    decreases n
  {
    if m < n {
      TotalOfPrefix(order, items, m, n - 1);
      TotalSnoc(order[..n - 1], order[n - 1], items);
      assert order[..n] == order[..n - 1] + [order[n - 1]];
    }
  }

  /** Eviction leaves exactly the longest most-recently-used prefix that fits. */
  lemma {:induction false} EvictedIsLongest(order: seq<string>, items: Sizes, cap: int, n: nat)
    requires 0 < n <= |order|
    ensures Total(order[..n], items) <= cap <==> n <= |Evicted(order, items, cap)|
  {
    assert order[..|order|] == order;
    if Total(order, items) <= cap {
      TotalOfPrefix(order, items, n, |order|);
    } else {
      var front := order[..|order| - 1];
      if n < |order| {
        assert front[..n] == order[..n];
        EvictedIsLongest(front, items, cap, n);
      }
    }
  }

  // ---- The cache ----

  class DiskCache {
    const maxByte: int
    /** Ids, most recently used first. */
    var order: seq<string>
    var items: Sizes
    var curByt: int
    /** The files of the cache directory, by segment id. */
    var files: map<string, seq<int>>

    ghost predicate Valid()
      reads this
    {
      && Distinct(order)
      && (forall id :: id in order <==> id in items)
      && curByt == Total(order, items)
    }

    constructor (maxByte: int)
      ensures Valid() && this.maxByte == maxByte && order == [] && files == map[]
    {
      this.maxByte, order, items, curByt, files := maxByte, [], map[], 0, map[];
    }

    /** Registers a file as most recently used, then evicts. */
    method Admit(id: string, size: nat)
      requires Valid()
      modifies this
      ensures Valid()
      ensures order == Evicted([id] + Without(old(order), id), old(items)[id := size], maxByte)
      ensures forall x :: x in order ==> items[x] == SizeOf(old(items)[id := size], x)
      ensures forall x :: x in files <==> x in old(files) && (x in order || (x !in old(items) && x != id))
      ensures forall x :: x in files ==> files[x] == old(files)[x]
    {
      AddLocked(id, size);
      EvictLocked();
    }

    method AddLocked(id: string, size: nat)
      requires Valid()
      modifies this`order, this`items, this`curByt
      ensures Valid()
      ensures order == [id] + Without(old(order), id) && items == old(items)[id := size]
    {
      hide Distinct, Without, Total;
      var rest := Without(order, id);
      WithoutMembers(order, id);
      WithoutKeeps(order, id, items);
      WithoutAbsentOr(order, id);
      DistinctCons(id, rest);
      TotalSame(rest, items, items[id := size]);
      TotalCons(id, rest, items[id := size]);
      if id in items {
        curByt := curByt + size - items[id];
        items := items[id := size];
        order := [id] + rest;
        return;
      }
      order := [id] + order;
      items := items[id := size];
      curByt := curByt + size;
    }

    method EvictLocked()
      requires Valid()
      modifies this
      ensures Valid()
      ensures order == Evicted(old(order), old(items), maxByte)
      ensures forall x :: x in order ==> items[x] == SizeOf(old(items), x)
      ensures forall x :: x in files <==> x in old(files) && (x in order || x !in old(items))
      ensures forall x :: x in files ==> files[x] == old(files)[x]
    {
      hide Evicted, Total, Distinct;
      ghost var gone: set<string> := {};
      while curByt > maxByte && |order| > 0
        invariant Valid() && gone <= old(items).Keys
        invariant items == old(items) - gone && files == old(files) - gone
        invariant Evicted(order, items, maxByte) == Evicted(old(order), old(items), maxByte)
        decreases |order|
      {
        var id := order[|order| - 1];
        EvictLast(order, items, maxByte);
        order := order[..|order| - 1];
        curByt := curByt - items[id];
        gone := gone + {id};
        items := items - {id};
        files := files - {id};
      }
      NothingToEvict(order, items, maxByte);
    }

    /** Marks an entry most recently used. */
    method Touch(id: string) returns (found: bool)
      requires Valid()
      modifies this`order
      ensures Valid() && found == (id in items)
      ensures order == if found then [id] + Without(old(order), id) else old(order)
    {
      if id !in items {
        return false;
      }
      WithoutMembers(order, id);
      WithoutKeeps(order, id, items);
      DistinctCons(id, Without(order, id));
      assert ([id] + Without(order, id))[1..] == Without(order, id);
      order := [id] + Without(order, id);
      found := true;
    }

    /** Drops an entry and its file. */
    method Remove(id: string)
      requires Valid()
      modifies this
      ensures Valid()
      ensures order == Without(old(order), id) && items == old(items) - {id} && files == old(files) - {id}
    {
      hide Total, Distinct, Without;
      WithoutMembers(order, id);
      WithoutKeeps(order, id, items);
      WithoutAbsentOr(order, id);
      TotalSame(Without(order, id), items, items - {id});
      if id in items {
        order := Without(order, id);
        curByt := curByt - items[id];
        items := items - {id};
      }
      files := files - {id};
    }

    // ---- Reading through the cache ----

    /** Every file is the S3 object of its id. */
    ghost predicate Faithful(bodies: map<string, seq<int>>)
      reads this
    {
      forall id :: id in files ==> id in bodies && files[id] == bodies[id]
    }

    /** A sealed segment's file moves into the cache, unless the rename fails. */
    method AdmitSealed(id: string, data: seq<int>, renamed: bool, ghost bodies: map<string, seq<int>>)
      requires Valid() && Faithful(bodies) && id in bodies && bodies[id] == data
      modifies this
      ensures Valid() && Faithful(bodies)
    {
      if renamed {
        files := files[id := data];
      }
      Admit(id, |data|);
    }

    /** Touches the cache, downloads on a miss, and opens the file. It fails when
        S3 lacks the object, and when the object alone exceeds the cache. */
    method Read(id: string, bodies: map<string, seq<int>>) returns (data: Option<seq<int>>)
      requires Valid() && Faithful(bodies)
      modifies this
      ensures Valid() && Faithful(bodies)
      ensures data.Some? ==> id in bodies && data.value == bodies[id]
      ensures data.Some? <==> (id in old(items) && id in old(files)) || (id in bodies && |bodies[id]| <= maxByte)
    {
      hide Total, Distinct, Evicted;
      var hit := Touch(id);
      if hit && id in files {
        return Some(files[id]);
      }
      if id !in bodies {
        return None;
      }
      files := files[id := bodies[id]];
      ghost var after := [id] + Without(order, id);
      ghost var sizes := items[id := |bodies[id]|];
      WithoutKeeps(order, id, items);
      WithoutMembers(order, id);
      DistinctCons(id, Without(order, id));
      Admit(id, |bodies[id]|);
      FrontStaysIff(after, sizes, maxByte);
      data := if id in files then Some(files[id]) else None;
    }
  }

  lemma WithoutAbsentOr(order: seq<string>, id: string)
    ensures id !in order ==> Without(order, id) == order
  {
    if id !in order {
      WithoutAbsent(order, id);
    }
  }

  /** One eviction. */
  lemma EvictLast(order: seq<string>, items: Sizes, cap: int)
    requires order != [] && Distinct(order) && Total(order, items) > cap
    ensures var id, front := order[|order| - 1], order[..|order| - 1];
      && Distinct(front) && id !in front
      && (forall x :: x in order <==> x in front || x == id)
      && Total(front, items - {id}) == Total(order, items) - SizeOf(items, id)
      && Evicted(front, items - {id}, cap) == Evicted(order, items, cap)
  {
    hide Distinct, Evicted, Total;
    var id, front := order[|order| - 1], order[..|order| - 1];
    assert order == front + [id];
    LastIsElsewhere(order);
    TotalSnoc(front, id, items);
    TotalSame(front, items, items - {id});
    EvictedSame(front, items, items - {id}, cap);
    EvictedStep(order, items, cap);
  }

  lemma LastIsElsewhere(order: seq<string>)
    requires order != [] && Distinct(order)
    ensures var id, front := order[|order| - 1], order[..|order| - 1];
      Distinct(front) && id !in front && forall x :: x in order <==> x in front || x == id
  {
    assert order == order[..|order| - 1] + [order[|order| - 1]];
  }

  lemma EvictedStep(order: seq<string>, items: Sizes, cap: int)
    requires order != [] && Total(order, items) > cap
    ensures Evicted(order, items, cap) == Evicted(order[..|order| - 1], items, cap)
  {
  }

  lemma NothingToEvict(order: seq<string>, items: Sizes, cap: int)
    requires order == [] || Total(order, items) <= cap
    ensures Evicted(order, items, cap) == order
  {
  }

  lemma {:induction false} EvictedSame(order: seq<string>, a: Sizes, b: Sizes, cap: int)
    requires forall i :: 0 <= i < |order| ==> SizeOf(a, order[i]) == SizeOf(b, order[i])
    ensures Evicted(order, a, cap) == Evicted(order, b, cap)
  {
    TotalSame(order, a, b);
    if order != [] {
      EvictedSame(order[..|order| - 1], a, b, cap);
    }
  }

  /** The entry just admitted stays exactly when it fits the cache alone. */
  lemma FrontStaysIff(order: seq<string>, items: Sizes, cap: int)
    requires order != [] && Distinct(order)
    ensures order[0] in Evicted(order, items, cap) <==> SizeOf(items, order[0]) <= cap
  {
    var kept := Evicted(order, items, cap);
    EvictedIsLongest(order, items, cap, 1);
    assert order[..1] == [order[0]] && [order[0]][1..] == [];
    assert Total(order[..1], items) == SizeOf(items, order[0]);
    if kept != [] { assert kept[0] == order[0]; }
  }
}
