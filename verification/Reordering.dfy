/** Lists that hold the same records in a different order of arrival. */
module Reordering {
  ghost predicate Reorders<T>(perm: seq<T>, records: seq<T>) {
    perm != [] && multiset(perm) == multiset(records)
  }

  lemma ReordersMembers<T>(perm: seq<T>, records: seq<T>)
    requires Reorders(perm, records)
    ensures records != [] && |perm| == |records|
    ensures forall r :: r in perm <==> r in records
  {
    assert |multiset(perm)| == |perm| && |multiset(records)| == |records|;
    assert forall r :: r in perm <==> r in multiset(perm);
    assert forall r :: r in records <==> r in multiset(records);
  }

  function MovedLast<T>(records: seq<T>, i: nat): seq<T>
    requires i < |records|
  {
    records[..i] + records[i + 1..] + [records[i]]
  }

  function MovedFirst<T>(records: seq<T>, i: nat): seq<T>
    requires i < |records|
  {
    [records[i]] + records[..i] + records[i + 1..]
  }

  lemma MovesReorder<T>(records: seq<T>, i: nat)
    requires i < |records|
    ensures Reorders(MovedLast(records, i), records) && Reorders(MovedFirst(records, i), records)
  {
    assert records == records[..i] + [records[i]] + records[i + 1..];
  }
}
