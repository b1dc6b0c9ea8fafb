/**
 Properties of the range-query engine that relate several calls or several
 inputs: the two readings of the build phase agree, the build is determined
 by its input, answers depend only on the queried slice, and the alternating
 answer always subtracts the first element of the range.
 */
module QueryProperties {
  import opened Sums
  import opened RangeQuery

  /** Entry `i` of both tables, read off the step-by-step build. */
  lemma {:induction false} RecurrenceGivesPrefix(data: seq<int>, t: Tables, i: nat)
    requires TablesByRecurrence(data, t)
    requires i <= |data|
    ensures t.prefixSum[i] == Sum(data[..i])
    ensures t.alternatingSum[i] == Alt(data[..i])
    decreases i
  {
    if i > 0 {
      RecurrenceGivesPrefix(data, t, i - 1);
      assert data[..i] == data[..i - 1] + [data[i - 1]];
      SumSnoc(data[..i - 1], data[i - 1]);
      AltSnoc(data[..i - 1], data[i - 1]);
    }
  }

  /** The tables hold the naive prefix sums exactly when they satisfy the
      loop's recurrence with zero first entries. */
  lemma TablesRecurrence(data: seq<int>, t: Tables)
    ensures TablesOf(data, t) <==> TablesByRecurrence(data, t)
  {
    if TablesOf(data, t) {
      forall i | 1 <= i <= |data|
        ensures t.prefixSum[i] == t.prefixSum[i - 1] + data[i - 1]
        ensures t.alternatingSum[i] == t.alternatingSum[i - 1] + (if i % 2 == 1 then data[i - 1] else -data[i - 1])
      {
        assert data[..i] == data[..i - 1] + [data[i - 1]];
        SumSnoc(data[..i - 1], data[i - 1]);
        AltSnoc(data[..i - 1], data[i - 1]);
      }
    }
    if TablesByRecurrence(data, t) {
      forall i | 0 <= i <= |data|
        ensures t.prefixSum[i] == Sum(data[..i]) && t.alternatingSum[i] == Alt(data[..i])
      {
        RecurrenceGivesPrefix(data, t, i);
      }
    }
  }

  /** The build phase is a function of its input: two builds from the same
      sequence yield identical tables. */
  lemma BuildDeterministic(data: seq<int>, t1: Tables, t2: Tables)
    requires TablesOf(data, t1) && TablesOf(data, t2)
    ensures t1 == t2
  {
  }

  /** An empty sequence yields the two one-entry zero tables, and the only
      query whose reads stay inside them is the empty range `[0, -1]`, which
      answers 0. */
  lemma EmptySequence(t: Tables, q: Query)
    requires TablesOf([], t)
    ensures t == Tables([0], [0])
    ensures InBounds(q, 0) ==> q.range == Range(0, -1) && ProcessQuery(q, t, []) == 0
  {
  }

  /** An ordered query answers the same over two sequences that agree on the
      queried slice, whatever the rest of either sequence holds. */
  lemma QueryLocality(q: Query, d1: seq<int>, t1: Tables, d2: seq<int>, t2: Tables)
    requires TablesOf(d1, t1) && TablesOf(d2, t2)
    requires InBounds(q, |d1|) && InBounds(q, |d2|) && Ordered(q)
    requires d1[q.range.l..q.range.r + 1] == d2[q.range.l..q.range.r + 1]
    ensures ProcessQuery(q, t1, d1) == ProcessQuery(q, t2, d2)
  {
  }

  /** Changing one element outside an ordered query's range leaves its answer
      unchanged. */
  lemma UpdateOutsideRange(q: Query, data: seq<int>, t1: Tables, k: int, v: int, t2: Tables)
    requires 0 <= k < |data| && !(q.range.l <= k <= q.range.r)
    requires TablesOf(data, t1) && TablesOf(data[k := v], t2)
    requires InBounds(q, |data|) && Ordered(q)
    ensures ProcessQuery(q, t1, data) == ProcessQuery(q, t2, data[k := v])
  {
  }

  /** A one-element range `[l, l]` answers `data[l]` for a plain query and
      `-data[l]` for any other query. */
  lemma SingleElement(q: Query, data: seq<int>, t: Tables)
    requires TablesOf(data, t)
    requires 0 <= q.range.l == q.range.r < |data|
    ensures q.kind == PlainKind ==> ProcessQuery(q, t, data) == data[q.range.l]
    ensures q.kind != PlainKind ==> ProcessQuery(q, t, data) == -data[q.range.l]
  {
    var x := data[q.range.l];
    assert data[q.range.l..q.range.r + 1] == [x];
    assert [x][1..] == [];
    assert Sum([x]) == x && Alt([x]) == x;
    assert Ordered(q);
  }

  /** The alternating answer over an ordered range adds the elements at odd
      offsets from `l` and subtracts those at even offsets, `data[l]` among
      them, regardless of the absolute parity of `l`. */
  lemma AlternatingSubtractsFirst(q: Query, data: seq<int>, t: Tables)
    requires TablesOf(data, t)
    requires InBounds(q, |data|) && Ordered(q) && q.kind != PlainKind
    ensures ProcessQuery(q, t, data) ==
              Sum(Odds(data[q.range.l..q.range.r + 1])) - Sum(Evens(data[q.range.l..q.range.r + 1]))
  {
    AltIsEvensMinusOdds(data[q.range.l..q.range.r + 1]);
  }
}
