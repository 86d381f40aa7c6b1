/** Per-source high-water marks: maps from source key to offset, default zero. */
module Offsets {
  import opened Model

  /** Moves one mark forward, never back. */
  function Raise(m: map<string, int>, key: string, off: int): map<string, int> {
    if off > At(m, key) then m[key := off] else m
  }

  /** Moves every mark of `into` forward to the mark in `from`, never back. */
  function MergeMax(into: map<string, int>, from: map<string, int>): map<string, int> {
    map key | key in into.Keys + from.Keys && (key in into || from[key] > 0)
      :: if key in from && from[key] > At(into, key) then from[key] else At(into, key)
  }

  /** The highest offset of each source among the records. */
  function MaxOff(records: seq<Record>): map<string, int> {
    if records == [] then map[]
    else
      var last := records[|records| - 1];
      Raise(MaxOff(records[..|records| - 1]), last.source, last.offset)
  }

  lemma MaxOffSnoc(records: seq<Record>, r: Record)
    ensures MaxOff(records + [r]) == Raise(MaxOff(records), r.source, r.offset)
  {
    assert (records + [r])[..|records|] == records;
  }

  /** MaxOff bounds every record, and each of its marks is some record's offset. */
  lemma {:induction false} MaxOffIsMax(records: seq<Record>)
    ensures forall r :: r in records ==> r.offset <= At(MaxOff(records), r.source)
    ensures forall key :: key in MaxOff(records) ==>
      MaxOff(records)[key] > 0
      && exists r :: r in records && r.source == key && r.offset == MaxOff(records)[key]
  {
    if records == [] {
    } else {
      var front, last := records[..|records| - 1], records[|records| - 1];
      MaxOffIsMax(front);
      assert records == front + [last];
      forall key | key in MaxOff(records)
        ensures MaxOff(records)[key] > 0
        ensures exists r :: r in records && r.source == key && r.offset == MaxOff(records)[key]
      {
        if key == last.source && last.offset > At(MaxOff(front), key) {
          assert last in records;
        } else {
          var r :| r in front && r.source == key && r.offset == MaxOff(front)[key];
          assert r in records;
        }
      }
    }
  }

  /** MaxOff does not depend on the order of the records. */
  lemma MaxOffOfPermutation(a: seq<Record>, b: seq<Record>)
    requires multiset(a) == multiset(b)
    ensures MaxOff(a) == MaxOff(b)
  {
    hide MaxOff, Raise;
    MaxOffIsMax(a);
    MaxOffIsMax(b);
    forall r ensures r in a <==> r in b {
      assert r in a <==> r in multiset(a);
      assert r in b <==> r in multiset(b);
    }
    forall key | key in MaxOff(a) ensures key in MaxOff(b) && MaxOff(b)[key] == MaxOff(a)[key] {
      var r :| r in a && r.source == key && r.offset == MaxOff(a)[key];
      assert r in b;
      var q :| q in b && q.source == key && q.offset == MaxOff(b)[key];
      assert q in a;
    }
    forall key | key in MaxOff(b) ensures key in MaxOff(a) {
      var q :| q in b && q.source == key && q.offset == MaxOff(b)[key];
      assert q in a;
    }
  }

  lemma MergeMaxAt(into: map<string, int>, from: map<string, int>, key: string)
    ensures At(MergeMax(into, from), key)
         == if At(from, key) > At(into, key) && key in from && (key in into || from[key] > 0) then At(from, key) else At(into, key)
  {
  }

  lemma MergeMaxIs(into: map<string, int>, from: map<string, int>, key: string)
    requires key in MergeMax(into, from)
    ensures (key in from && from[key] > At(into, key) && MergeMax(into, from)[key] == from[key])
         || (key in into && MergeMax(into, from)[key] == into[key])
  {
  }

  /** What the server acks on a stream: committed offsets of the sources seen on it. */
  function BuildAck(seen: set<string>, committed: map<string, int>): map<string, int> {
    map key | key in seen && key in committed :: committed[key]
  }

  /** MergeMax, one entry at a time in any order. */
  method MergeInto(into: map<string, int>, from: map<string, int>) returns (out: map<string, int>)
    ensures out == MergeMax(into, from)
  {
    out := into;
    var todo := from.Keys;
    while todo != {}
      invariant todo <= from.Keys
      invariant forall key :: key in out <==> key in into || (key in from && key !in todo && from[key] > 0)
      invariant forall key :: key in out ==>
        out[key] == if key in from && key !in todo && from[key] > At(into, key) then from[key] else At(into, key)
      decreases todo
    {
      var key :| key in todo;
      todo := todo - {key};
      if from[key] > At(out, key) {
        out := out[key := from[key]];
      }
    }
  }
}
