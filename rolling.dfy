/** pandas `rolling(window=n)` over a column: a statistic of the n values ending at each
    index, NaN (`None`) until the first n values are available. */
module Rolling {
  import opened Wrappers
  import opened Numeric

  /** The sum of the n values ending at index i, kept up incrementally as the window
      slides: seeded with the first full window, then adding the value that enters and
      subtracting the value that leaves. */
  function WindowSum(xs: seq<real>, n: nat, i: nat): real
    requires 1 <= n && n - 1 <= i < |xs|
    decreases i
  {
    if i == n - 1 then Sum(xs[..n]) else WindowSum(xs, n, i - 1) + xs[i] - xs[i - n]
  }

  /** The sliding sum is the sum of the window. */
  lemma {:induction false} WindowSumIsSum(xs: seq<real>, n: nat, i: nat)
    requires 1 <= n && n - 1 <= i < |xs|
    ensures WindowSum(xs, n, i) == Sum(xs[i + 1 - n..i + 1])
    decreases i
  {
    if i == n - 1 {
      assert xs[i + 1 - n..i + 1] == xs[..n];
    } else {
      WindowSumIsSum(xs, n, i - 1);
      var w := xs[i - n..i + 1];
      assert w[..|w| - 1] == xs[i - n..i];
      assert w[1..] == xs[i + 1 - n..i + 1];
      SumFirst(w);
    }
  }

  /** `rolling(window=n).mean()`. */
  function RollingMean(xs: seq<real>, n: nat): (r: seq<Option<real>>)
    requires n >= 1
    ensures |r| == |xs|
  {
    seq(|xs|, i requires 0 <= i < |xs| =>
      if i + 1 < n then None else Some(WindowSum(xs, n, i) / (n as real)))
  }

  /** The rolling mean at i is undefined before the first full window and is the
      arithmetic mean of the n values ending at i afterwards. */
  lemma RollingMeanAt(xs: seq<real>, n: nat, i: nat)
    requires n >= 1 && i < |xs|
    ensures i + 1 < n ==> RollingMean(xs, n)[i] == None
    ensures i + 1 >= n ==> RollingMean(xs, n)[i] == Some(Mean(xs[i + 1 - n..i + 1]))
  {
    if i + 1 >= n {
      WindowSumIsSum(xs, n, i);
    }
  }

  /** The rolling mean of a constant column is that constant wherever it is defined. */
  lemma RollingMeanConstant(xs: seq<real>, n: nat, c: real, i: nat)
    requires n >= 1 && n - 1 <= i < |xs|
    requires forall k :: 0 <= k < |xs| ==> xs[k] == c
    ensures RollingMean(xs, n)[i] == Some(c)
  {
    RollingMeanAt(xs, n, i);
    MeanConstant(xs[i + 1 - n..i + 1], c);
  }

  /** A rolling mean stays within the bounds of the column it averages. */
  lemma RollingMeanWithin(xs: seq<real>, n: nat, lo: real, hi: real, i: nat)
    requires n >= 1 && n - 1 <= i < |xs|
    requires forall k :: 0 <= k < |xs| ==> lo <= xs[k] <= hi
    ensures RollingMean(xs, n)[i].Some?
    ensures lo <= RollingMean(xs, n)[i].value <= hi
  {
    RollingMeanAt(xs, n, i);
    MeanWithin(xs[i + 1 - n..i + 1], lo, hi);
  }

  /** `rolling(window=n).min()`. */
  function RollingMin(xs: seq<real>, n: nat): (r: seq<Option<real>>)
    requires n >= 1
    ensures |r| == |xs|
    ensures forall i :: 0 <= i < |xs| ==> (r[i].Some? <==> i + 1 >= n)
  {
    seq(|xs|, i requires 0 <= i < |xs| =>
      if i + 1 < n then None else Some(MinOf(xs[i + 1 - n..i + 1])))
  }

  /** `rolling(window=n).max()`. */
  function RollingMax(xs: seq<real>, n: nat): (r: seq<Option<real>>)
    requires n >= 1
    ensures |r| == |xs|
    ensures forall i :: 0 <= i < |xs| ==> (r[i].Some? <==> i + 1 >= n)
  {
    seq(|xs|, i requires 0 <= i < |xs| =>
      if i + 1 < n then None else Some(MaxOf(xs[i + 1 - n..i + 1])))
  }

  /** Once defined, the rolling minimum is a value of the window and no value of the
      window is smaller. */
  lemma RollingMinAt(xs: seq<real>, n: nat, i: nat)
    requires n >= 1 && n - 1 <= i < |xs|
    ensures RollingMin(xs, n)[i].Some?
    ensures forall k :: i + 1 - n <= k <= i ==> RollingMin(xs, n)[i].value <= xs[k]
    ensures exists k :: i + 1 - n <= k <= i && RollingMin(xs, n)[i].value == xs[k]
  {
    var lo := i + 1 - n;
    var w := xs[lo..i + 1];
    assert RollingMin(xs, n)[i] == Some(MinOf(w));
    assert forall k :: lo <= k <= i ==> xs[k] == w[k - lo];
    var j :| 0 <= j < |w| && w[j] == MinOf(w);
    assert xs[j + lo] == MinOf(w);
  }

  /** Once defined, the rolling maximum is a value of the window and no value of the
      window is larger. */
  lemma RollingMaxAt(xs: seq<real>, n: nat, i: nat)
    requires n >= 1 && n - 1 <= i < |xs|
    ensures RollingMax(xs, n)[i].Some?
    ensures forall k :: i + 1 - n <= k <= i ==> xs[k] <= RollingMax(xs, n)[i].value
    ensures exists k :: i + 1 - n <= k <= i && RollingMax(xs, n)[i].value == xs[k]
  {
    var lo := i + 1 - n;
    var w := xs[lo..i + 1];
    assert RollingMax(xs, n)[i] == Some(MaxOf(w));
    assert forall k :: lo <= k <= i ==> xs[k] == w[k - lo];
    var j :| 0 <= j < |w| && w[j] == MaxOf(w);
    assert xs[j + lo] == MaxOf(w);
  }

  /** Sum of squared deviations from m. */
  function SquaredDeviations(xs: seq<real>, m: real): real
  {
    if |xs| == 0 then 0.0
    else SquaredDeviations(xs[..|xs| - 1], m) + (xs[|xs| - 1] - m) * (xs[|xs| - 1] - m)
  }

  /** The sample variance (one degree of freedom removed, as pandas' `std` uses), that
      is the square of the sample standard deviation. */
  function SampleVariance(xs: seq<real>): (v: real)
    requires |xs| >= 2
    ensures v >= 0.0
  {
    var total := SquaredDeviations(xs, Mean(xs));
    SquaredDeviationsNonnegative(xs, Mean(xs));
    QuotientNonnegative(total, (|xs| - 1) as real);
    total / ((|xs| - 1) as real)
  }

  lemma QuotientNonnegative(s: real, d: real)
    requires s >= 0.0 && d > 0.0
    ensures s / d >= 0.0
  {
    QuotientBounds(s, d, 0.0, s / d);
  }

  lemma {:induction false} SquaredDeviationsNonnegative(xs: seq<real>, m: real)
    ensures SquaredDeviations(xs, m) >= 0.0
  {
    if |xs| > 0 {
      SquaredDeviationsNonnegative(xs[..|xs| - 1], m);
      var d := xs[|xs| - 1] - m;
      assert d * d >= 0.0 by {
        if d < 0.0 {
          assert d * d == (-d) * (-d);
        }
      }
    }
  }

  lemma {:induction false} SquaredDeviationsOfConstant(xs: seq<real>, c: real)
    requires forall k :: 0 <= k < |xs| ==> xs[k] == c
    ensures SquaredDeviations(xs, c) == 0.0
  {
    if |xs| > 0 {
      SquaredDeviationsOfConstant(xs[..|xs| - 1], c);
    }
  }

  /** The square of `rolling(window=n).std()`. */
  function RollingVariance(xs: seq<real>, n: nat): (r: seq<Option<real>>)
    requires n >= 2
    ensures |r| == |xs|
    ensures forall i :: 0 <= i < |xs| ==> (r[i].Some? <==> i + 1 >= n)
    ensures forall i :: 0 <= i < |xs| && r[i].Some? ==> r[i].value >= 0.0
  {
    seq(|xs|, i requires 0 <= i < |xs| =>
      if i + 1 < n then None
      else
        Some(SampleVariance(xs[i + 1 - n..i + 1])))
  }

  /** A constant column has zero variance wherever the variance is defined. */
  lemma RollingVarianceConstant(xs: seq<real>, n: nat, c: real, i: nat)
    requires n >= 2 && n - 1 <= i < |xs|
    requires forall k :: 0 <= k < |xs| ==> xs[k] == c
    ensures RollingVariance(xs, n)[i] == Some(0.0)
  {
    var w := xs[i + 1 - n..i + 1];
    MeanConstant(w, c);
    SquaredDeviationsOfConstant(w, c);
  }
}
