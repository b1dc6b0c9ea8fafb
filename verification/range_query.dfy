/**
 The offline range-query engine: two prefix tables are built once from the
 input sequence, and each query is then answered by subtracting two table
 entries. A query of type "1" asks for the plain sum of a range; a query of
 any other type asks for an alternating sum, with a sign correction that
 depends on the parity of the range's left end.
 */
module RangeQuery {
  import opened Sums

  /** The inclusive index pair `[l, r]` of a query. */
  datatype Range = Range(l: int, r: int)

  /** A query descriptor: `kind` is the type string ("1" for a plain sum,
      anything else for an alternating sum) and `range` its index pair. */
  datatype Query = Query(kind: string, range: Range)

  /** The two tables built from the input sequence. */
  datatype Tables = Tables(prefixSum: seq<int>, alternatingSum: seq<int>)

  /** The type string that selects the plain range sum. */
  const PlainKind: string := "1"

  /** `t` is what the build phase produces for `data`: both tables have one
      entry more than `data`, and entry `i` holds the plain and the alternating
      sum of the first `i` elements. */
  ghost predicate TablesOf(data: seq<int>, t: Tables)
  {
    && |t.prefixSum| == |data| + 1
    && |t.alternatingSum| == |data| + 1
    && forall i :: 0 <= i <= |data| ==>
         t.prefixSum[i] == Sum(data[..i]) && t.alternatingSum[i] == Alt(data[..i])
  }

  /** The build phase stated step by step, as the loop writes it: entry 0 of
      both tables is 0, and entry `i` extends entry `i - 1` by `data[i - 1]`,
      added to the alternating table when `i` is odd and subtracted when `i`
      is even. */
  ghost predicate TablesByRecurrence(data: seq<int>, t: Tables)
  {
    && |t.prefixSum| == |data| + 1
    && |t.alternatingSum| == |data| + 1
    && t.prefixSum[0] == 0
    && t.alternatingSum[0] == 0
    && forall i :: 1 <= i <= |data| ==>
         && t.prefixSum[i] == t.prefixSum[i - 1] + data[i - 1]
         && t.alternatingSum[i] == t.alternatingSum[i - 1] + (if i % 2 == 1 then data[i - 1] else -data[i - 1])
  }

  /** Both table reads of `q` are inside tables built from a sequence of
      length `n`. The engine checks nothing itself; reads outside the tables
      are not modelled. */
  predicate InBounds(q: Query, n: nat)
  {
    0 <= q.range.l <= n && 0 <= q.range.r + 1 <= n
  }

  /** The range runs left to right: `l <= r`, or `l == r + 1` for an empty range. */
  predicate Ordered(q: Query)
  {
    q.range.l <= q.range.r + 1
  }

  /** The answer computed naively from `data`, without tables. For an ordered
      range `[l, r]` a plain query sums `data[l..r]` and any other query gives
      the alternating sum of `data[l..r]` with `data[l]` SUBTRACTED, then
      `data[l + 1]` added, and so on. For an inverted range the table
      difference runs backwards over `data[r + 1..l - 1]`. */
  ghost function NaiveAnswer(data: seq<int>, q: Query): int
    requires InBounds(q, |data|)
  {
    var l, r := q.range.l, q.range.r;
    if l <= r + 1 then
      if q.kind == PlainKind then Sum(data[l..r + 1]) else -Alt(data[l..r + 1])
    else
      if q.kind == PlainKind then -Sum(data[r + 1..l]) else SignAt(l - r - 1, Alt(data[r + 1..l]))
  }

  /** Builds both tables in one left-to-right pass over `data`. */
  method CalculatePrefixSums(data: seq<int>) returns (t: Tables)
    ensures TablesOf(data, t)
  {
    var n := |data|;
    var prefixSum := new int[n + 1](_ => 0);
    var alternatingSum := new int[n + 1](_ => 0);
    for i := 1 to n + 1
      invariant forall j :: 0 <= j < i ==> prefixSum[j] == Sum(data[..j])
      invariant forall j :: 0 <= j < i ==> alternatingSum[j] == Alt(data[..j])
    {
      assert data[..i] == data[..i - 1] + [data[i - 1]];
      SumSnoc(data[..i - 1], data[i - 1]);
      AltSnoc(data[..i - 1], data[i - 1]);
      prefixSum[i] := prefixSum[i - 1] + data[i - 1];
      alternatingSum[i] := alternatingSum[i - 1] + (if i % 2 == 1 then data[i - 1] else -data[i - 1]);
    }
    t := Tables(prefixSum[..], alternatingSum[..]);
  }

  /** A difference of two table entries is a naive sum over the slice of
      `data` between the two entries: the plain table gives the range sum,
      and the alternating table gives the range's alternating sum with the
      sign that the slice's first position carries in the whole sequence.
      For an inverted range both differences run backwards. */
  lemma TableDifference(data: seq<int>, t: Tables, l: int, r: int)
    requires TablesOf(data, t)
    requires 0 <= l <= |data| && 0 <= r + 1 <= |data|
    ensures l <= r + 1 ==> t.prefixSum[r + 1] - t.prefixSum[l] == Sum(data[l..r + 1])
    ensures l <= r + 1 ==> t.alternatingSum[r + 1] - t.alternatingSum[l] == SignAt(l, Alt(data[l..r + 1]))
    ensures l > r + 1 ==> t.prefixSum[r + 1] - t.prefixSum[l] == -Sum(data[r + 1..l])
    ensures l > r + 1 ==> t.alternatingSum[r + 1] - t.alternatingSum[l] == -SignAt(r + 1, Alt(data[r + 1..l]))
  {
    if l <= r + 1 {
      PrefixSumDifference(data, l, r + 1);
      PrefixAltDifference(data, l, r + 1);
    } else {
      PrefixSumDifference(data, r + 1, l);
      PrefixAltDifference(data, r + 1, l);
    }
  }

  /** Answers one query from the tables in constant time. For an ordered
      range the answer is the naive range sum or the naive alternating sum
      with `data[l]` subtracted, whatever the parity of `l`. */
  function ProcessQuery(q: Query, t: Tables, ghost data: seq<int>): (answer: int)
    requires TablesOf(data, t)
    requires InBounds(q, |data|)
    ensures Ordered(q) && q.kind == PlainKind ==>
              answer == Sum(data[q.range.l..q.range.r + 1])
    ensures Ordered(q) && q.kind != PlainKind ==>
              answer == -Alt(data[q.range.l..q.range.r + 1])
    ensures answer == NaiveAnswer(data, q)
  {
    var l, r := q.range.l, q.range.r;
    TableDifference(data, t, l, r);
    if q.kind == PlainKind then
      t.prefixSum[r + 1] - t.prefixSum[l]
    else
      var result := t.alternatingSum[r + 1] - t.alternatingSum[l];
      if l % 2 == 0 then -result else result
  }

  /** Answers every query in order, against tables built once. */
  function AnswerAll(queries: seq<Query>, t: Tables, ghost data: seq<int>): (results: seq<int>)
    requires TablesOf(data, t)
    requires forall i :: 0 <= i < |queries| ==> InBounds(queries[i], |data|)
    ensures |results| == |queries|
    ensures forall i :: 0 <= i < |queries| ==> results[i] == ProcessQuery(queries[i], t, data)
    ensures forall i :: 0 <= i < |queries| ==> results[i] == NaiveAnswer(data, queries[i])
  {
    if |queries| == 0 then []
    else [ProcessQuery(queries[0], t, data)] + AnswerAll(queries[1..], t, data)
  }

  /** The whole engine: build the tables once, then answer the queries in
      order. */
  method Solve(data: seq<int>, queries: seq<Query>) returns (results: seq<int>)
    requires forall i :: 0 <= i < |queries| ==> InBounds(queries[i], |data|)
    ensures |results| == |queries|
    ensures forall i :: 0 <= i < |queries| ==> results[i] == NaiveAnswer(data, queries[i])
  {
    var t := CalculatePrefixSums(data);
    results := AnswerAll(queries, t, data);
  }
}
