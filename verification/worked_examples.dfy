/**
 Concrete queries, answered as the engine answers them. They pin down the
 sign convention of the alternating query: the first element of the range is
 always subtracted.
 */
module WorkedExamples {
  import opened Sums
  import opened RangeQuery
  import opened QueryProperties

  /** On `[5]` the plain query over `[0, 0]` answers 5 and a query of any
      other type answers -5. */
  lemma SingletonSequence(t: Tables)
    requires TablesOf([5], t)
    ensures ProcessQuery(Query("1", Range(0, 0)), t, [5]) == 5
    ensures forall k :: k != PlainKind ==> ProcessQuery(Query(k, Range(0, 0)), t, [5]) == -5
  {
    assert [5][0..1] == [5];
    assert [5][1..] == [];
    forall k | k != PlainKind
      ensures ProcessQuery(Query(k, Range(0, 0)), t, [5]) == -5
    {
      SingleElement(Query(k, Range(0, 0)), [5], t);
    }
  }

  /** On `[1, 2, 3, 4, 5]`: the plain query over `[1, 3]` answers 9, the
      alternating query over `[0, 4]` answers -3 (that is, -1 + 2 - 3 + 4 - 5)
      and the alternating query over `[1, 3]` answers -3 (that is, -2 + 3 - 4). */
  lemma FiveElementSequence(t: Tables)
    requires TablesOf([1, 2, 3, 4, 5], t)
    ensures ProcessQuery(Query("1", Range(1, 3)), t, [1, 2, 3, 4, 5]) == 9
    ensures ProcessQuery(Query("2", Range(0, 4)), t, [1, 2, 3, 4, 5]) == -3
    ensures ProcessQuery(Query("2", Range(1, 3)), t, [1, 2, 3, 4, 5]) == -3
  {
    var data := [1, 2, 3, 4, 5];
    assert data[1..4] == [2, 3, 4];
    assert data[0..5] == [1, 2, 3, 4, 5];
    assert Sum([4]) == 4 && Alt([4]) == 4 by { assert [4][1..] == []; }
    assert [3, 4][1..] == [4] && [2, 3, 4][1..] == [3, 4];
    assert Sum([2, 3, 4]) == 9 && Alt([2, 3, 4]) == 3;
    assert Alt([5]) == 5 by { assert [5][1..] == []; }
    assert [4, 5][1..] == [5] && [3, 4, 5][1..] == [4, 5];
    assert [2, 3, 4, 5][1..] == [3, 4, 5] && data[1..] == [2, 3, 4, 5];
    assert Alt(data) == 3;
  }
}
