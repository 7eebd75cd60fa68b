/** Bollinger bands over the closing price: the 20-day mean and the 20-day sample
    standard deviation, the bands two deviations either side of the mean, and the band
    width relative to the mean, which is what the scorer reads. */
module Bollinger {
  import opened Wrappers
  import opened Numeric
  import opened Rolling

  /** One defined row of the band columns. The standard deviation is kept as its square,
      the sample variance: the model has no square root, and every use of the width
      below is decided exactly on the variance. */
  datatype Band = Band(mean: real, variance: real)

  /** `SMA20` and the square of `STD20` for a window of `period` closes. */
  function Bands(close: seq<real>, period: nat): (b: seq<Option<Band>>)
    requires period >= 2
    ensures |b| == |close|
    ensures forall i :: 0 <= i < |close| ==> (b[i].Some? <==> i + 1 >= period)
    ensures forall i :: 0 <= i < |close| && b[i].Some? ==> b[i].value.variance >= 0.0
  {
    seq(|close|, i requires 0 <= i < |close| =>
      if i + 1 < period then None
      else
        var w := close[i + 1 - period..i + 1];
        Some(Band(Mean(w), SampleVariance(w))))
  }

  /** The band row agrees with the rolling mean and rolling variance columns. */
  lemma BandsAgree(close: seq<real>, period: nat, i: nat)
    requires period >= 2 && i < |close|
    ensures Bands(close, period)[i].Some? ==>
      Some(Bands(close, period)[i].value.mean) == RollingMean(close, period)[i] &&
      Some(Bands(close, period)[i].value.variance) == RollingVariance(close, period)[i]
    ensures Bands(close, period)[i].None? ==>
      RollingMean(close, period)[i].None? && RollingVariance(close, period)[i].None?
  {
    RollingMeanAt(close, period, i);
  }

  /** `BB_Width < 0.05` on a band of mean m and variance v. With s the standard
      deviation the width is (m + 2s - (m - 2s)) / m = 4s/m. For m > 0 the comparison
      4s < 0.05 m, that is 80s < m, is decided on squares; a negative mean makes the width
      non-positive, and a zero mean makes it NaN or +inf, neither of which is below 0.05. */
  predicate NarrowBand(m: real, v: real)
  {
    (m > 0.0 && 6400.0 * v < m * m) || m < 0.0
  }

  /** `BB_Width > 0.15`: for m > 0 (80s > 3m) decided on squares, never for a negative
      mean, and for a zero mean exactly when the deviation is positive (the width is then
      +inf). */
  predicate WideBand(m: real, v: real)
  {
    (m > 0.0 && 6400.0 * v > 9.0 * (m * m)) || (m == 0.0 && v > 0.0)
  }

  /** The two width rules on a band cell; a NaN cell (warm-up) satisfies neither. */
  predicate Narrow(b: Option<Band>)
  {
    b.Some? && NarrowBand(b.value.mean, b.value.variance)
  }

  predicate Wide(b: Option<Band>)
  {
    b.Some? && WideBand(b.value.mean, b.value.variance)
  }

  /** The band width as the source computes it, from a standard deviation s, in IEEE
      terms (an infinity or NaN when the mean is zero). */
  function Width(mean: real, s: real): Option<Ext>
  {
    Divide((mean + 2.0 * s) - (mean - 2.0 * s), mean)
  }

  lemma SquaresOrdered(a: real, b: real)
    requires a >= 0.0 && b >= 0.0
    ensures a < b <==> a * a < b * b
  {
    assert (b - a) * (b + a) == b * b - a * a;
    if a < b {
      MulPositive(b - a, b + a);
    } else {
      MulNonnegative(a - b, a + b);
      assert (a - b) * (a + b) == a * a - b * b;
    }
  }

  lemma QuotientOrder(x: real, m: real, c: real)
    requires m > 0.0
    ensures x / m < c <==> x < c * m
    ensures x / m > c <==> x > c * m
  {
    var q := x / m;
    assert q * m == x;
    if q < c {
      assert q * m < c * m;
    } else {
      assert q * m >= c * m;
    }
    if q > c {
      assert q * m > c * m;
    } else {
      assert q * m <= c * m;
    }
  }

  /** The two width rules, decided on the variance, are exactly the comparisons of the
      width computed from the standard deviation: for every s >= 0, with s * s as the
      variance, `NarrowBand` holds iff the width is below 0.05 and `WideBand` iff it is
      above 0.15. */
  lemma WidthRules(mean: real, s: real)
    requires s >= 0.0
    ensures NarrowBand(mean, s * s) <==> Below(Width(mean, s), 0.05)
    ensures WideBand(mean, s * s) <==> Above(Width(mean, s), 0.15)
  {
    if mean > 0.0 {
      WidthPositiveMean(mean, s);
    } else if mean < 0.0 {
      WidthNegativeMean(mean, s);
    } else {
      WidthZeroMean(s);
    }
  }

  lemma WidthPositiveMean(mean: real, s: real)
    requires mean > 0.0 && s >= 0.0
    ensures NarrowBand(mean, s * s) <==> Below(Width(mean, s), 0.05)
    ensures WideBand(mean, s * s) <==> Above(Width(mean, s), 0.15)
  {
    var x := (mean + 2.0 * s) - (mean - 2.0 * s);
    var y := 20.0 * x;
    assert y == 80.0 * s;
    assert y * y == 6400.0 * (s * s);
    QuotientOrder(x, mean, 0.05);
    QuotientOrder(x, mean, 0.15);
    SquaresOrdered(y, mean);
    SquaresOrdered(3.0 * mean, y);
    assert (3.0 * mean) * (3.0 * mean) == 9.0 * (mean * mean);
  }

  lemma WidthNegativeMean(mean: real, s: real)
    requires mean < 0.0 && s >= 0.0
    ensures NarrowBand(mean, s * s) && Below(Width(mean, s), 0.05)
    ensures !WideBand(mean, s * s) && !Above(Width(mean, s), 0.15)
  {
    var x := (mean + 2.0 * s) - (mean - 2.0 * s);
    var q := x / mean;
    assert q * mean == x;
    assert q <= 0.0 by {
      if q > 0.0 {
        MulPositive(q, -mean);
      }
    }
  }

  lemma WidthZeroMean(s: real)
    requires s >= 0.0
    ensures NarrowBand(0.0, s * s) <==> Below(Width(0.0, s), 0.05)
    ensures WideBand(0.0, s * s) <==> Above(Width(0.0, s), 0.15)
  {
    if s > 0.0 {
      MulPositive(s, s);
      assert Width(0.0, s) == Some(PosInf);
    } else {
      assert Width(0.0, s) == None;
    }
  }

  /** A positive constant with no spread is a narrow band and not a wide one. */
  lemma FlatBand(c: real)
    requires c > 0.0
    ensures Narrow(Some(Band(c, 0.0))) && !Wide(Some(Band(c, 0.0)))
  {
    MulPositive(c, c);
    assert NarrowBand(c, 0.0) && !WideBand(c, 0.0);
  }

  /** On a constant close column every defined band has the constant as its mean and a
      zero variance, so the width is 0 (below 0.05) for a positive close. */
  lemma BandsConstant(close: seq<real>, period: nat, c: real, i: nat)
    requires period >= 2 && period - 1 <= i < |close|
    requires forall k :: 0 <= k < |close| ==> close[k] == c
    ensures Bands(close, period)[i] == Some(Band(c, 0.0))
    ensures c > 0.0 ==> Narrow(Bands(close, period)[i]) && !Wide(Bands(close, period)[i])
  {
    var w := close[i + 1 - period..i + 1];
    MeanConstant(w, c);
    SquaredDeviationsOfConstant(w, c);
    if c > 0.0 {
      FlatBand(c);
    }
  }
}
