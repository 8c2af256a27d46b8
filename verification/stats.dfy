/**
 * Summary statistics over a series of durations (seconds as exact reals):
 * the generic `mean`/`stdev` templates, their specialisations for
 * `duration<double>`, and the sequence minimum and maximum the throughput
 * accessors rely on.
 *
 * `std::sqrt` cannot be defined here; the methods that take a square root
 * receive it as a function `sqrt` that `IsSqrt` constrains, so that what is
 * stated about the standard deviation goes through `stdev >= 0` and
 * `Sq(stdev) == Variance`.
 */
module Stats {

  /** Left fold of `+` from 0, as `std::accumulate` computes it. */
  function Sum(s: seq<real>): real
  {
    if |s| == 0 then 0.0 else Sum(s[..|s| - 1]) + s[|s| - 1]
  }

  lemma SumAppend(s: seq<real>, x: real)
    ensures Sum(s + [x]) == Sum(s) + x
  {
    assert (s + [x])[..|s|] == s;
  }

  /** Arithmetic mean; 0 for the empty series. */
  function Mean(s: seq<real>): (m: real)
    ensures |s| == 0 ==> m == 0.0
    ensures |s| > 0 ==> m * (|s| as real) == Sum(s)
  {
    if |s| == 0 then 0.0 else Sum(s) / (|s| as real)
  }

  /** Smallest element of a non-empty series. */
  function Min(s: seq<real>): (r: real)
    requires |s| > 0
    ensures r in s
    ensures forall i :: 0 <= i < |s| ==> r <= s[i]
  {
    if |s| == 1 then s[0]
    else
      var m := Min(s[..|s| - 1]);
      if s[|s| - 1] < m then s[|s| - 1] else m
  }

  /** Largest element of a non-empty series. */
  function Max(s: seq<real>): (r: real)
    requires |s| > 0
    ensures r in s
    ensures forall i :: 0 <= i < |s| ==> s[i] <= r
  {
    if |s| == 1 then s[0]
    else
      var m := Max(s[..|s| - 1]);
      if m < s[|s| - 1] then s[|s| - 1] else m
  }

  function Same(x: real): real { x }

  /**
   * `x * x`. The second factor goes through `Same` so that the solver
   * treats the product as one of two terms whose signs it knows.
   */
  function Sq(x: real): real { x * Same(x) }

  /** Sum of squared differences from `m`, accumulated left to right. */
  function SumSquares(s: seq<real>, m: real): real
  {
    if |s| == 0 then 0.0
    else SumSquares(s[..|s| - 1], m) + Sq(s[|s| - 1] - m)
  }

  /** Population variance: the squared differences are divided by n, not n - 1. */
  function Variance(s: seq<real>): real
    requires |s| > 0
  {
    SumSquares(s, Mean(s)) / (|s| as real)
  }

  /** `sqrt` is a square root on the non-negative reals. */
  ghost predicate IsSqrt(sqrt: real -> real)
  {
    forall x :: 0.0 <= x ==> 0.0 <= sqrt(x) && Sq(sqrt(x)) == x
  }

  ghost predicate AllEqual(s: seq<real>)
  {
    forall i, j :: 0 <= i < |s| && 0 <= j < |s| ==> s[i] == s[j]
  }

  predicate Positive(s: seq<real>)
  {
    forall i :: 0 <= i < |s| ==> s[i] > 0.0
  }

  lemma SquareNonNegative(d: real)
    ensures Sq(d) >= 0.0
  {
  }

  lemma SquarePositive(d: real)
    requires d != 0.0
    ensures Sq(d) > 0.0
  {
  }

  /** A quotient by a positive count lies between the bounds of the dividend per unit. */
  lemma QuotientBetween(n: real, total: real, lo: real, hi: real)
    requires n > 0.0 && n * lo <= total <= n * hi
    ensures lo <= total / n <= hi
  {
  }

  lemma {:induction false} SumBounds(s: seq<real>, lo: real, hi: real)
    requires forall i :: 0 <= i < |s| ==> lo <= s[i] <= hi
    ensures (|s| as real) * lo <= Sum(s) <= (|s| as real) * hi
  {
    if |s| > 0 {
      SumBounds(s[..|s| - 1], lo, hi);
      assert (|s| as real) * lo == ((|s| - 1) as real) * lo + lo;
      assert (|s| as real) * hi == ((|s| - 1) as real) * hi + hi;
    }
  }

  /** The mean of a non-empty series lies between its minimum and maximum. */
  lemma MeanBetweenMinMax(s: seq<real>)
    requires |s| > 0
    ensures Min(s) <= Mean(s) <= Max(s)
  {
    MeanBetween(s, Min(s), Max(s));
  }

  lemma MeanBetween(s: seq<real>, lo: real, hi: real)
    requires |s| > 0
    requires forall i :: 0 <= i < |s| ==> lo <= s[i] <= hi
    ensures lo <= Mean(s) <= hi
  {
    SumBounds(s, lo, hi);
    var n, total := |s| as real, Sum(s);
    assert Mean(s) == total / n;
    QuotientBetween(n, total, lo, hi);
  }

  lemma {:induction false} SumOfConstant(s: seq<real>, c: real)
    requires forall i :: 0 <= i < |s| ==> s[i] == c
    ensures Sum(s) == (|s| as real) * c
  {
    if |s| > 0 {
      SumOfConstant(s[..|s| - 1], c);
      assert (|s| as real) * c == ((|s| - 1) as real) * c + c;
    }
  }

  lemma {:induction false} SumSquaresNonNegative(s: seq<real>, m: real)
    ensures SumSquares(s, m) >= 0.0
  {
    if |s| > 0 {
      SumSquaresNonNegative(s[..|s| - 1], m);
      SquareNonNegative(s[|s| - 1] - m);
    }
  }

  /** One element away from `m` makes the sum of squared differences positive. */
  lemma {:induction false} SumSquaresPositive(s: seq<real>, m: real, i: nat)
    requires i < |s| && s[i] != m
    ensures SumSquares(s, m) > 0.0
  {
    SquareNonNegative(s[|s| - 1] - m);
    if i == |s| - 1 {
      SumSquaresNonNegative(s[..|s| - 1], m);
      SquarePositive(s[i] - m);
    } else {
      assert s[..|s| - 1][i] == s[i];
      SumSquaresPositive(s[..|s| - 1], m, i);
    }
  }

  lemma {:induction false} SumSquaresOfConstant(s: seq<real>, c: real)
    requires forall i :: 0 <= i < |s| ==> s[i] == c
    ensures SumSquares(s, c) == 0.0
  {
    if |s| > 0 {
      SumSquaresOfConstant(s[..|s| - 1], c);
    }
  }

  lemma VarianceNonNegative(s: seq<real>)
    requires |s| > 0
    ensures Variance(s) >= 0.0
  {
    SumSquaresNonNegative(s, Mean(s));
  }

  /** The variance is zero exactly when every sample is the same. */
  lemma VarianceZeroIffConstant(s: seq<real>)
    requires |s| > 0
    ensures Variance(s) == 0.0 <==> AllEqual(s)
  {
    if AllEqual(s) {
      SumOfConstant(s, s[0]);
      assert Mean(s) == s[0];
      SumSquaresOfConstant(s, s[0]);
    } else {
      var i, j :| 0 <= i < |s| && 0 <= j < |s| && s[i] != s[j];
      var k := if s[i] != Mean(s) then i else j;
      SumSquaresPositive(s, Mean(s), k);
    }
  }

  /** A single sample has no spread. */
  lemma VarianceOfSingleSample(x: real)
    ensures Variance([x]) == 0.0
  {
    VarianceZeroIffConstant([x]);
  }

  /**
   * Samples 1, 2 and 3 seconds: mean 2, population variance 2/3
   * (standard deviation about 0.8165); the n - 1 divisor would give 1.
   */
  lemma PopulationDivisorExample()
    ensures Mean([1.0, 2.0, 3.0]) == 2.0
    ensures Variance([1.0, 2.0, 3.0]) == 2.0 / 3.0
    ensures Variance([1.0, 2.0, 3.0]) != SumSquares([1.0, 2.0, 3.0], 2.0) / 2.0
  {
    var s := [1.0, 2.0, 3.0];
    assert s[..2] == [1.0, 2.0] && s[..2][..1] == [1.0] && [1.0][..0] == [];
    assert Sum(s) == 6.0;
    assert SumSquares(s, 2.0) == 2.0;
  }

  /**
   * The generic template: no empty guard (an empty input divides 0.0 by
   * 0), so the series must be non-empty.
   */
  method Stdev(data: seq<real>, sqrt: real -> real) returns (r: real)
    requires |data| > 0
    requires IsSqrt(sqrt)
    ensures r == sqrt(Variance(data))
    ensures r >= 0.0
    ensures Sq(r) == Variance(data)
    ensures r == 0.0 <==> AllEqual(data)
  {
    var meanValue := Mean(data);
    var sumSquaredDifferences := 0.0;
    for i := 0 to |data|
      invariant sumSquaredDifferences == SumSquares(data[..i], meanValue)
    {
      var difference := data[i] - meanValue;
      sumSquaredDifferences := sumSquaredDifferences + difference * difference;
      assert data[..i + 1][..i] == data[..i];
    }
    assert data[..|data|] == data;
    var meanSquaredDifferences := sumSquaredDifferences / (|data| as real);
    VarianceNonNegative(data);
    r := sqrt(meanSquaredDifferences);
    VarianceZeroIffConstant(data);
    if r == 0.0 {
      assert Variance(data) == 0.0;
    } else {
      SquarePositive(r);
      assert Variance(data) > 0.0;
    }
  }

  /** The `duration<double>` specialisation: an empty series has deviation 0. */
  method StdevDuration(data: seq<real>, sqrt: real -> real) returns (r: real)
    requires IsSqrt(sqrt)
    ensures r >= 0.0
    ensures |data| == 0 ==> r == 0.0
    ensures |data| > 0 ==> r == sqrt(Variance(data))
    ensures |data| > 0 ==> Sq(r) == Variance(data)
    ensures |data| > 0 ==> (r == 0.0 <==> AllEqual(data))
  {
    if |data| == 0 {
      return 0.0;
    }
    r := Stdev(data, sqrt);
  }
}
