# Offline range-query engine

This project models the range-query engine in `Task4/app.js`. The engine takes
a sequence of numbers and a list of queries `{type, range: [l, r]}`. It first
builds two tables of length `n + 1` in one pass:

- `prefixSum`, the running sum;
- `alternatingSum`, the running sum in which 0-indexed even positions are
  added and odd positions are subtracted.

It then answers each query by subtracting two table entries:

- A query of type `"1"` answers `prefixSum[r + 1] - prefixSum[l]`.
- A query of any other type answers `alternatingSum[r + 1] - alternatingSum[l]`,
  negated when `l` is even.

Answers come back in the order of the queries.

The model proves the table arithmetic against naive recursive definitions
(`Sums.Sum`, and `Sums.Alt`, which is `s[0] - s[1] + s[2] - ...`):

- A type `"1"` query over `[l, r]` answers `data[l] + ... + data[r]`.
- Any other query answers `-data[l] + data[l + 1] - data[l + 2] + ...`.
  That is `-Alt(data[l..r])`, whatever the parity of `l`.

The parity correction does not make the first element of the range positive.
It makes the first element negative in every case. For example, `[5]` with
range `[0, 0]` answers `-5`, and `[1, 2, 3, 4, 5]` with range `[0, 4]` answers
`-3`. Read as an alternating range sum that starts with `+`, the table would
give `5` and `3` for those two queries; the code gives `-5` and `-3`, and the
model states what the code computes.

Modules:

- `Sums` (`sums.dfy`): the naive sums, the even and odd position split, and
  the concatenation lemmas.
- `RangeQuery` (`range_query.dfy`): the tables, the build loop, one query,
  and the batch.
- `QueryProperties` (`query_properties.dfy`): relations between builds,
  sequences and queries.
- `WorkedExamples` (`worked_examples.dfy`): concrete answers.

The query type is kept as a string, `Query.kind`: `"1"` selects the plain sum
and every other string selects the alternating sum. The engine performs no
bounds check. A query is modelled whenever both of its table reads are inside
the tables (`0 <= l <= n` and `0 <= r + 1 <= n`). This includes the empty
range `l == r + 1` and inverted ranges `l > r + 1`, which JavaScript evaluates
without error. For an inverted range, the difference runs backwards over
`data[r + 1..l - 1]` (`RangeQuery.NaiveAnswer`).

## Model

| member | source | states |
|---|---|---|
| RangeQuery.CalculatePrefixSums | Task4/app.js:3-15 | Both tables have length `n + 1`. Entry `i` of `prefixSum` is the sum of the first `i` elements. Entry `i` of `alternatingSum` is their alternating sum, with 0-indexed even positions added. Entry 0 of each is 0. |
| QueryProperties.TablesRecurrence | Task4/app.js:4-12 | The tables hold the naive prefix sums if and only if they follow the loop's recurrence: zero first entries, `prefixSum[i] = prefixSum[i-1] + data[i-1]`, and `alternatingSum[i]` adds `data[i-1]` when `i` is odd and subtracts it when `i` is even. |
| QueryProperties.BuildDeterministic | Task4/app.js:3-15 | Two builds from the same sequence give identical tables. |
| QueryProperties.EmptySequence | Task4/app.js:4-6 | An empty sequence gives the tables `[0]` and `[0]`. The only query whose reads stay inside them is `[0, -1]`, and it answers 0. |
| Sums.Evens | Task4/app.js:10-11 | Lists the elements at 0-indexed even positions, in order. These are the elements the alternating table adds. |
| Sums.Odds | Task4/app.js:10-11 | Lists the elements at 0-indexed odd positions, in order. These are the elements the alternating table subtracts. |
| Sums.AltIsEvensMinusOdds | Task4/app.js:10-11 | The recursive alternating sum equals the sum of the even-position elements minus the sum of the odd-position elements. |
| Sums.PrefixSumDifference | Task4/app.js:21 | For `lo <= hi`, the difference of the prefix sums at `hi` and `lo` is the sum of the slice `[lo, hi)`. |
| Sums.PrefixAltDifference | Task4/app.js:23 | For `lo <= hi`, the difference of the alternating prefix sums at `hi` and `lo` is the slice's alternating sum. It is negated when `lo` is odd. |
| RangeQuery.TableDifference | Task4/app.js:17-23 | Each table difference a query reads is a naive sum over the slice between the two reads, for ordered and for inverted ranges. |
| RangeQuery.ProcessQuery | Task4/app.js:17-29 | For an ordered range, a type `"1"` query answers the naive sum of `data[l..r]`. Any other type answers minus the first-positive alternating sum of `data[l..r]`. Every in-bounds query answers `NaiveAnswer`. |
| QueryProperties.SingleElement | Task4/app.js:20-27 | For `l = r`, a type `"1"` query answers `data[l]` and any other type answers `-data[l]`. |
| QueryProperties.AlternatingSubtractsFirst | Task4/app.js:22-27 | A non-`"1"` query over an ordered range adds the elements at odd offsets from `l`. It subtracts the elements at even offsets, `data[l]` included, for either parity of `l`. |
| QueryProperties.QueryLocality | Task4/app.js:17-29 | An ordered query gives the same answer over two sequences that agree on `data[l..r]`. |
| QueryProperties.UpdateOutsideRange | Task4/app.js:17-29 | Changing one element outside `[l, r]` leaves the answer unchanged. |
| RangeQuery.AnswerAll | Task4/app.js:42-44 | The output has one answer per query. Output `i` is query `i`'s answer from the same tables, and it equals the naive answer, so order is preserved. |
| RangeQuery.Solve | Task4/app.js:40-44 | Builds the tables once, then answers every query. Output `i` is the naive answer to query `i`. |
| WorkedExamples.SingletonSequence | Task4/app.js:17-29 | On `[5]`, range `[0, 0]` answers 5 for type `"1"` and -5 for any other type. |
| WorkedExamples.FiveElementSequence | Task4/app.js:17-29 | On `[1, 2, 3, 4, 5]`, the plain query over `[1, 3]` answers 9. The alternating queries over `[0, 4]` and `[1, 3]` both answer -3. |

## Left out

- Numbers are modelled as unbounded integers. The source works on JavaScript
  floating-point numbers, where the sums can round; the identities proved here
  are exact only for integers.
- Out-of-bounds queries are not modelled. The source does not check bounds. A
  read outside the tables gives `undefined` and the answer is `NaN`. Every
  query member requires both reads to be in bounds. The source does not reject
  such queries, and the model does not claim that it does.
- The type field is modelled as a string compared with `"1"`. JavaScript's
  strict comparison also sends a numeric `1` to the alternating branch, and the
  model has no non-string types.
- The network fetch of the input and the post of the results are left out
  (`Task4/app.js:31-39` and `46-64`). This covers the bearer token, the logging
  and the `try`/`catch`. `RangeQuery.Solve` takes the fetched sequence and
  queries as parameters and returns the results that would be posted.
- `Task1/app.js` (HTTP upload endpoints, spreadsheet parsing, time filtering)
  is not part of this model. It is I/O around libraries that cannot be seen
  here.
