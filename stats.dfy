/** The numpy reductions the pipeline uses (sum, mean, max, min, population
    variance, successive differences), over exact reals. */
module Stats {

  function Abs(x: real): (r: real)
    ensures r >= 0.0 && (r == x || r == -x)
  {
    if x < 0.0 then -x else x
  }

  /** Every element equals the first one. */
  predicate Constant(s: seq<real>)
  {
    forall i :: 0 <= i < |s| ==> s[i] == s[0]
  }

  /** Sum of the elements, accumulated from the end so that prefixes unfold. */
  function Sum(s: seq<real>): real
  {
    if s == [] then 0.0 else Sum(s[..|s| - 1]) + s[|s| - 1]
  }

  /** Arithmetic mean (np.mean). */
  function Mean(s: seq<real>): (m: real)
    requires |s| > 0
    ensures m * |s| as real == Sum(s)
  {
    Sum(s) / |s| as real
  }

  /** Largest element (np.max). */
  function Max(s: seq<real>): (m: real)
    requires |s| > 0
    ensures forall i :: 0 <= i < |s| ==> s[i] <= m
    ensures exists i :: 0 <= i < |s| && s[i] == m
  {
    if |s| == 1 then s[0]
    else
      var m' := Max(s[..|s| - 1]);
      if s[|s| - 1] > m' then s[|s| - 1] else m'
  }

  /** Smallest element (np.min). */
  function Min(s: seq<real>): (m: real)
    requires |s| > 0
    ensures forall i :: 0 <= i < |s| ==> m <= s[i]
    ensures exists i :: 0 <= i < |s| && s[i] == m
  {
    if |s| == 1 then s[0]
    else
      var m' := Min(s[..|s| - 1]);
      if s[|s| - 1] < m' then s[|s| - 1] else m'
  }

  /** Sum of the squared elements. */
  function SumSquares(s: seq<real>): (r: real)
    ensures r >= 0.0
  {
    if s == [] then 0.0 else SumSquares(s[..|s| - 1]) + s[|s| - 1] * s[|s| - 1]
  }

  function Centered(s: seq<real>, c: real): (r: seq<real>)
    ensures |r| == |s|
    ensures forall i :: 0 <= i < |s| ==> r[i] == s[i] - c
  {
    seq(|s|, i requires 0 <= i < |s| => s[i] - c)
  }

  /** Population variance: the square of np.std with its default ddof 0. */
  function Variance(s: seq<real>): (v: real)
    requires |s| > 0
    ensures v >= 0.0
  {
    SumSquares(Centered(s, Mean(s))) / |s| as real
  }

  /** Mean of the squared elements. */
  function MeanSquare(s: seq<real>): (r: real)
    requires |s| > 0
    ensures r >= 0.0
  {
    SumSquares(s) / |s| as real
  }

  /** Successive differences (np.diff). */
  function Diffs(s: seq<real>): (d: seq<real>)
    ensures |d| == if |s| < 2 then 0 else |s| - 1
    ensures forall i :: 0 <= i < |d| ==> d[i] == s[i + 1] - s[i]
  {
    if |s| < 2 then [] else seq(|s| - 1, i requires 0 <= i < |s| - 1 => s[i + 1] - s[i])
  }

  /** Extending a prefix by one element adds that element to the sum. */
  lemma SumOfPrefix(s: seq<real>, k: int)
    requires 0 < k <= |s|
    ensures Sum(s[..k]) == Sum(s[..k - 1]) + s[k - 1]
  {
    assert s[..k][..k - 1] == s[..k - 1];
  }

  lemma {:induction false} SumLowerBound(s: seq<real>, lo: real)
    requires forall i :: 0 <= i < |s| ==> lo <= s[i]
    ensures |s| as real * lo <= Sum(s)
  {
    if s != [] {
      var init := s[..|s| - 1];
      assert forall i :: 0 <= i < |init| ==> init[i] == s[i];
      SumLowerBound(init, lo);
      assert |s| as real * lo == |init| as real * lo + lo;
    }
  }

  lemma {:induction false} SumUpperBound(s: seq<real>, hi: real)
    requires forall i :: 0 <= i < |s| ==> s[i] <= hi
    ensures Sum(s) <= |s| as real * hi
  {
    if s != [] {
      var init := s[..|s| - 1];
      assert forall i :: 0 <= i < |init| ==> init[i] == s[i];
      SumUpperBound(init, hi);
      assert |s| as real * hi == |init| as real * hi + hi;
    }
  }

  /** The mean lies within any bounds that hold for every element. */
  lemma MeanBetween(s: seq<real>, lo: real, hi: real)
    requires |s| > 0
    requires forall i :: 0 <= i < |s| ==> lo <= s[i] <= hi
    ensures lo <= Mean(s) <= hi
  {
    SumLowerBound(s, lo);
    SumUpperBound(s, hi);
    var n := |s| as real;
    assert Mean(s) * n == Sum(s);
  }

  /** The mean of a constant sequence is that constant. */
  lemma MeanOfConstant(s: seq<real>)
    requires |s| > 0 && Constant(s)
    ensures Mean(s) == s[0]
  {
    MeanBetween(s, s[0], s[0]);
  }

  /** A sum of squares is positive as soon as one element is non-zero. */
  lemma {:induction false} SumSquaresPositive(s: seq<real>, k: int)
    requires 0 <= k < |s| && s[k] != 0.0
    ensures SumSquares(s) > 0.0
  {
    var init := s[..|s| - 1];
    var x := s[|s| - 1];
    if k == |s| - 1 {
      calc {
        SumSquares(s);
      ==
        SumSquares(init) + x * x;
      >=
        x * x;
      >
        0.0;
      }
    } else {
      assert init[k] == s[k];
      SumSquaresPositive(init, k);
    }
  }

  lemma {:induction false} SumSquaresOfZeros(s: seq<real>)
    requires forall i :: 0 <= i < |s| ==> s[i] == 0.0
    ensures SumSquares(s) == 0.0
  {
    if s != [] {
      var init := s[..|s| - 1];
      assert forall i :: 0 <= i < |init| ==> init[i] == s[i];
      SumSquaresOfZeros(init);
    }
  }

  /** A sum of squares vanishes exactly when every element does. */
  lemma SumSquaresZeroIff(s: seq<real>)
    ensures SumSquares(s) == 0.0 <==> forall i :: 0 <= i < |s| ==> s[i] == 0.0
  {
    if exists k :: 0 <= k < |s| && s[k] != 0.0 {
      var k :| 0 <= k < |s| && s[k] != 0.0;
      SumSquaresPositive(s, k);
    } else {
      SumSquaresOfZeros(s);
    }
  }

  /** Population variance vanishes exactly on constant sequences. */
  lemma VarianceZeroIff(s: seq<real>)
    requires |s| > 0
    ensures Variance(s) == 0.0 <==> Constant(s)
  {
    var c := Centered(s, Mean(s));
    SumSquaresZeroIff(c);
    var n := |s| as real;
    assert Variance(s) * n == SumSquares(c);
    if Constant(s) {
      MeanOfConstant(s);
      assert forall i :: 0 <= i < |s| ==> c[i] == 0.0;
    }
  }

  lemma {:induction false} ConstantFromZeroDiffs(s: seq<real>, k: nat)
    requires k < |s|
    requires forall i :: 0 <= i < |Diffs(s)| ==> Diffs(s)[i] == 0.0
    ensures s[k] == s[0]
  {
    if k > 0 {
      ConstantFromZeroDiffs(s, k - 1);
      assert Diffs(s)[k - 1] == s[k] - s[k - 1];
    }
  }

  /** The mean squared successive difference vanishes exactly on constant sequences. */
  lemma MeanSquareDiffsZeroIff(s: seq<real>)
    requires |s| >= 2
    ensures MeanSquare(Diffs(s)) == 0.0 <==> Constant(s)
  {
    if MeanSquare(Diffs(s)) == 0.0 {
      ConstantFromZeroMeanSquare(s);
    }
    if Constant(s) {
      ZeroMeanSquareFromConstant(s);
    }
  }

  lemma ConstantFromZeroMeanSquare(s: seq<real>)
    requires |s| >= 2 && MeanSquare(Diffs(s)) == 0.0
    ensures Constant(s)
  {
    var d := Diffs(s);
    MeanSquareZero(d);
    SumSquaresZeroIff(d);
    forall k | 0 <= k < |s| ensures s[k] == s[0] {
      ConstantFromZeroDiffs(s, k);
    }
  }

  lemma ZeroMeanSquareFromConstant(s: seq<real>)
    requires |s| >= 2 && Constant(s)
    ensures MeanSquare(Diffs(s)) == 0.0
  {
    var d := Diffs(s);
    forall i | 0 <= i < |d| ensures d[i] == 0.0 {
      assert d[i] == s[i + 1] - s[i];
      assert s[i + 1] == s[0] && s[i] == s[0];
    }
    SumSquaresZeroIff(d);
  }

  lemma MeanSquareZero(s: seq<real>)
    requires |s| > 0 && MeanSquare(s) == 0.0
    ensures SumSquares(s) == 0.0
  {
  }
}
