/**
 Naive reference definitions for the range-query engine: the plain sum of a
 sequence and its alternating sum (first element added, second subtracted,
 and so on), together with the splitting lemmas that the prefix tables rest on.
 */
module Sums {

  /** The sum of all elements of `s`, summed from the front. */
  ghost function Sum(s: seq<int>): int
  {
    if |s| == 0 then 0 else s[0] + Sum(s[1..])
  }

  /** The alternating sum `s[0] - s[1] + s[2] - ...`: positions 0, 2, 4, ...
      of `s` are added and positions 1, 3, 5, ... are subtracted. */
  ghost function Alt(s: seq<int>): int
  {
    if |s| == 0 then 0 else s[0] - Alt(s[1..])
  }

  /** `x` when `k` is even, `-x` when `k` is odd: the sign that position `k`
      carries in an alternating sum that starts with `+`. */
  ghost function SignAt(k: nat, x: int): int
  {
    if k % 2 == 0 then x else -x
  }

  /** The elements of `s` at even positions 0, 2, 4, ..., in order. */
  function Evens(s: seq<int>): (r: seq<int>)
    ensures |r| == (|s| + 1) / 2
    ensures forall k :: 0 <= k < |r| ==> r[k] == s[2 * k]
    decreases |s|
  {
    if |s| == 0 then [] else [s[0]] + Odds(s[1..])
  }

  /** The elements of `s` at odd positions 1, 3, 5, ..., in order. */
  function Odds(s: seq<int>): (r: seq<int>)
    ensures |r| == |s| / 2
    ensures forall k :: 0 <= k < |r| ==> r[k] == s[2 * k + 1]
    decreases |s|
  {
    if |s| == 0 then [] else Evens(s[1..])
  }

  /** Summing a concatenation sums the two parts. */
  lemma {:induction false} SumConcat(a: seq<int>, b: seq<int>)
    ensures Sum(a + b) == Sum(a) + Sum(b)
  {
    if |a| == 0 {
      assert a + b == b;
    } else {
      assert (a + b)[1..] == a[1..] + b;
      SumConcat(a[1..], b);
    }
  }

  /** The alternating sum of a concatenation: the second part keeps its own
      signs when the first part has even length and has them flipped when
      the first part has odd length. */
  lemma {:induction false} AltConcat(a: seq<int>, b: seq<int>)
    ensures Alt(a + b) == Alt(a) + SignAt(|a|, Alt(b))
  {
    if |a| == 0 {
      assert a + b == b;
    } else {
      assert (a + b)[1..] == a[1..] + b;
      AltConcat(a[1..], b);
    }
  }

  /** Appending one element adds it to the sum. */
  lemma SumSnoc(s: seq<int>, x: int)
    ensures Sum(s + [x]) == Sum(s) + x
  {
    SumConcat(s, [x]);
    assert [x][1..] == [];
  }

  /** Appending one element at position `|s|` adds it with the sign of that
      position. */
  lemma AltSnoc(s: seq<int>, x: int)
    ensures Alt(s + [x]) == Alt(s) + SignAt(|s|, x)
  {
    AltConcat(s, [x]);
    assert [x][1..] == [];
  }

  /** The alternating sum is the sum of the even-position elements minus the
      sum of the odd-position elements: an independent, non-recursive reading
      of `Alt`. */
  lemma {:induction false} AltIsEvensMinusOdds(s: seq<int>)
    ensures Alt(s) == Sum(Evens(s)) - Sum(Odds(s))
    decreases |s|
  {
    if |s| > 0 {
      var t := s[1..];
      AltIsEvensMinusOdds(t);
      assert Evens(s) == [s[0]] + Odds(t);
      assert ([s[0]] + Odds(t))[1..] == Odds(t);
      assert Odds(s) == Evens(t);
    }
  }

  /** A difference of two prefix sums of `s` is the sum of the slice between
      them. */
  lemma PrefixSumDifference(s: seq<int>, lo: nat, hi: nat)
    requires lo <= hi <= |s|
    ensures Sum(s[..hi]) - Sum(s[..lo]) == Sum(s[lo..hi])
  {
    assert s[..hi] == s[..lo] + s[lo..hi];
    SumConcat(s[..lo], s[lo..hi]);
  }

  /** A difference of two alternating prefix sums of `s` is the alternating
      sum of the slice between them, with its sign flipped when the slice
      starts at an odd position. */
  lemma PrefixAltDifference(s: seq<int>, lo: nat, hi: nat)
    requires lo <= hi <= |s|
    ensures Alt(s[..hi]) - Alt(s[..lo]) == SignAt(lo, Alt(s[lo..hi]))
  {
    assert s[..hi] == s[..lo] + s[lo..hi];
    AltConcat(s[..lo], s[lo..hi]);
  }
}
