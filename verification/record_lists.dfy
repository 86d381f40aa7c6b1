/** Lists of records, and the order of offsets within a source. */
module RecordLists {
  import opened Model

  /** The lists, one after the other. */
  function Concat(lists: seq<seq<Record>>): seq<Record> {
    if lists == [] then [] else lists[0] + Concat(lists[1..])
  }

  lemma {:induction false} ConcatSnoc(lists: seq<seq<Record>>, last: seq<Record>)
    ensures Concat(lists + [last]) == Concat(lists) + last
  {
    if lists == [] {
      assert [last][1..] == [];
    } else {
      ConcatSnoc(lists[1..], last);
      assert (lists + [last])[1..] == lists[1..] + [last];
    }
  }

  /** Offsets ascend strictly within each source. */
  predicate Ascending(rs: seq<Record>) {
    forall i, j :: 0 <= i < j < |rs| && rs[i].source == rs[j].source ==> rs[i].offset < rs[j].offset
  }

  predicate Positive(rs: seq<Record>) {
    forall i :: 0 <= i < |rs| ==> rs[i].offset > 0
  }
}
