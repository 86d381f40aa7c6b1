/** The segment catalog (internal/store/catalog.go). */
module Catalog {
  import opened Model
  import opened Wire

  type Key = seq<int>

  /** Big-endian start time, then the id. */
  function KeyOf(m: SegmentMeta): Key {
    BigEndian(Unsigned64(m.minTS), 8) + Codes(m.id)
  }

  /** Earlier start first; equal starts by id. */
  predicate StartsBefore(a: SegmentMeta, b: SegmentMeta) {
    a.minTS < b.minTS || (a.minTS == b.minTS && Less(Codes(a.id), Codes(b.id)))
  }

  /** Key order is start order exactly between segments that start on the same
      side of 1970. */
  lemma KeyOrderIff(a: SegmentMeta, b: SegmentMeta)
    requires InInt64(a.minTS) && InInt64(b.minTS)
    ensures (Less(KeyOf(a), KeyOf(b)) <==> StartsBefore(a, b)) <==> (a.minTS < 0 <==> b.minTS < 0)
  {
    hide KeyOf, BigEndian, Less;
    var x, y := Unsigned64(a.minTS), Unsigned64(b.minTS);
    KeyLess(a, b);
    WordOrder(x, y);
  }

  lemma WordOrder(x: nat, y: nat)
    requires x < TWO_64 && y < TWO_64
    ensures Less(BigEndian(x, 8), BigEndian(y, 8)) <==> x < y
    ensures BigEndian(x, 8) == BigEndian(y, 8) <==> x == y
  {
    assert Pow256(4) == TWO_32;
    assert Pow256(8) == TWO_64;
    BigEndianOrder(x, y, 8);
  }

  lemma KeyLess(a: SegmentMeta, b: SegmentMeta)
    ensures Less(KeyOf(a), KeyOf(b)) <==>
      Unsigned64(a.minTS) < Unsigned64(b.minTS)
      || (Unsigned64(a.minTS) == Unsigned64(b.minTS) && Less(Codes(a.id), Codes(b.id)))
  {
    hide BigEndian;
    var x, y := Unsigned64(a.minTS), Unsigned64(b.minTS);
    LessAppend(BigEndian(x, 8), BigEndian(y, 8), Codes(a.id), Codes(b.id));
    WordOrder(x, y);
  }

  /** Keys tell ids apart. */
  lemma KeyHasId(a: SegmentMeta, b: SegmentMeta)
    requires KeyOf(a) == KeyOf(b)
    ensures a.id == b.id
  {
    assert KeyOf(a)[8..] == Codes(a.id) && KeyOf(b)[8..] == Codes(b.id);
    CodesInjective(a.id, b.id);
  }

  /** Every entry is under its own key. */
  ghost predicate WellKeyed(bucket: map<Key, SegmentMeta>) {
    forall k :: k in bucket ==> KeyOf(bucket[k]) == k
  }

  ghost predicate HasId(bucket: map<Key, SegmentMeta>, id: string) {
    exists k :: k in bucket && bucket[k].id == id
  }

  method Has(bucket: map<Key, SegmentMeta>, id: string) returns (found: bool)
    ensures found <==> HasId(bucket, id)
  {
    found := false;
    var todo := bucket.Keys;
    while todo != {}
      invariant todo <= bucket.Keys
      invariant found <==> exists k :: k in bucket.Keys - todo && bucket[k].id == id
      decreases todo
    {
      var k :| k in todo;
      todo := todo - {k};
      if bucket[k].id == id {
        found := true;
      }
    }
  }

  /** The least key, where the cursor stands next. */
  method First(keys: set<Key>) returns (k: Key)
    requires keys != {}
    ensures k in keys && forall x :: x in keys && x != k ==> Less(k, x)
  {
    k :| k in keys;
    var todo := keys - {k};
    while todo != {}
      invariant k in keys && todo <= keys && k !in todo
      invariant forall x :: x in keys - todo && x != k ==> Less(k, x)
      decreases todo
    {
      var x :| x in todo;
      todo := todo - {x};
      LessTotal(k, x);
      if Less(x, k) {
        forall y | y in keys - todo && y != x ensures Less(x, y) {
          if y != k { LessTransitive(x, k, y); }
        }
        k := x;
      }
    }
  }

  /** The cursor scan: entries that overlap, in key order. */
  method Overlapping(bucket: map<Key, SegmentMeta>, start: Time, end: Time) returns (out: seq<SegmentMeta>)
    requires WellKeyed(bucket)
    ensures forall m :: m in out <==> KeyOf(m) in bucket && bucket[KeyOf(m)] == m && m.Overlaps(start, end)
    ensures forall i, j :: 0 <= i < j < |out| ==> Less(KeyOf(out[i]), KeyOf(out[j]))
  {
    hide KeyOf, Less;
    out := [];
    var todo := bucket.Keys;
    while todo != {}
      invariant todo <= bucket.Keys
      invariant forall m :: m in out <==>
        KeyOf(m) in bucket && KeyOf(m) !in todo && bucket[KeyOf(m)] == m && m.Overlaps(start, end)
      invariant forall k, m :: k in todo && m in out ==> Less(KeyOf(m), k)
      invariant forall i, j :: 0 <= i < j < |out| ==> Less(KeyOf(out[i]), KeyOf(out[j]))
      decreases todo
    {
      var k := First(todo);
      todo := todo - {k};
      var m := bucket[k];
      if m.Overlaps(start, end) {
        out := out + [m];
      }
    }
  }

  /** From 1970 on, a scan is in ascending start order. */
  lemma ScanAscends(out: seq<SegmentMeta>)
    requires forall i, j :: 0 <= i < j < |out| ==> Less(KeyOf(out[i]), KeyOf(out[j]))
    requires forall i :: 0 <= i < |out| ==> 0 <= out[i].minTS < TWO_63
    ensures forall i, j :: 0 <= i < j < |out| ==> StartsBefore(out[i], out[j])
  {
    hide KeyOf, Less;
    forall i, j | 0 <= i < j < |out| ensures StartsBefore(out[i], out[j]) {
      KeyOrderIff(out[i], out[j]);
    }
  }
}
