/** `calculate_macd`: exponential moving averages with `adjust=False` (seeded with the
    first value, no bias correction), the MACD line, its signal line and the histogram. */
module Macd {

  /** The smoothing factor of a span, 2 / (span + 1). */
  function Alpha(span: nat): (a: real)
    requires span >= 1
    ensures 0.0 < a <= 1.0
  {
    2.0 / ((span + 1) as real)
  }

  /** One step of the average: the new value weighted by alpha, the previous average by
      1 - alpha. */
  function EmaStep(alpha: real, x: real, prev: real): real
  {
    alpha * x + (1.0 - alpha) * prev
  }

  /** The exponential average at index i. */
  function EmaAt(xs: seq<real>, alpha: real, i: nat): real
    requires i < |xs|
    decreases i
  {
    if i == 0 then xs[0] else EmaStep(alpha, xs[i], EmaAt(xs, alpha, i - 1))
  }

  /** `ewm(span=span, adjust=False).mean()` of a column. */
  function Ema(xs: seq<real>, span: nat): (e: seq<real>)
    requires span >= 1
    ensures |e| == |xs|
    ensures |xs| > 0 ==> e[0] == xs[0]
  {
    seq(|xs|, i requires 0 <= i < |xs| => EmaAt(xs, Alpha(span), i))
  }

  /** The average is seeded with the first value and then moves by the smoothing
      factor towards each new value. */
  lemma EmaRecurrence(xs: seq<real>, span: nat, i: nat)
    requires span >= 1 && 0 < i < |xs|
    ensures Ema(xs, span)[i] == Alpha(span) * xs[i] + (1.0 - Alpha(span)) * Ema(xs, span)[i - 1]
  {
  }

  /** A step between two values in [lo, hi] stays in [lo, hi]. */
  lemma EmaStepWithin(alpha: real, x: real, prev: real, lo: real, hi: real)
    requires 0.0 <= alpha <= 1.0
    requires lo <= x <= hi && lo <= prev <= hi
    ensures lo <= EmaStep(alpha, x, prev) <= hi
  {
    assert alpha * (x - lo) >= 0.0 && (1.0 - alpha) * (prev - lo) >= 0.0;
    assert alpha * (hi - x) >= 0.0 && (1.0 - alpha) * (hi - prev) >= 0.0;
  }

  /** The average never leaves the range of the values seen so far. */
  lemma {:induction false} EmaWithin(xs: seq<real>, alpha: real, i: nat, lo: real, hi: real)
    requires 0.0 <= alpha <= 1.0 && i < |xs|
    requires forall k :: 0 <= k <= i ==> lo <= xs[k] <= hi
    ensures lo <= EmaAt(xs, alpha, i) <= hi
    decreases i
  {
    if i > 0 {
      EmaWithin(xs, alpha, i - 1, lo, hi);
      EmaStepWithin(alpha, xs[i], EmaAt(xs, alpha, i - 1), lo, hi);
    }
  }

  /** The average of a constant column is that constant. */
  lemma EmaConstant(xs: seq<real>, span: nat, c: real, i: nat)
    requires span >= 1 && i < |xs|
    requires forall k :: 0 <= k < |xs| ==> xs[k] == c
    ensures Ema(xs, span)[i] == c
  {
    EmaWithin(xs, Alpha(span), i, c, c);
  }

  /** Elementwise difference of two columns of equal length. */
  function Minus(xs: seq<real>, ys: seq<real>): (d: seq<real>)
    requires |xs| == |ys|
    ensures |d| == |xs|
    ensures forall i :: 0 <= i < |xs| ==> d[i] == xs[i] - ys[i]
  {
    seq(|xs|, i requires 0 <= i < |xs| => xs[i] - ys[i])
  }

  /** The average is linear: the average of a difference is the difference of averages. */
  lemma {:induction false} EmaOfDifference(xs: seq<real>, ys: seq<real>, alpha: real, i: nat)
    requires |xs| == |ys| && i < |xs|
    ensures EmaAt(Minus(xs, ys), alpha, i) == EmaAt(xs, alpha, i) - EmaAt(ys, alpha, i)
    decreases i
  {
    if i > 0 {
      var d := Minus(xs, ys);
      var a, b := EmaAt(xs, alpha, i - 1), EmaAt(ys, alpha, i - 1);
      EmaOfDifference(xs, ys, alpha, i - 1);
      assert EmaAt(d, alpha, i) == EmaStep(alpha, xs[i] - ys[i], a - b);
      EmaStepLinear(alpha, xs[i], ys[i], a, b);
    }
  }

  lemma EmaStepLinear(alpha: real, x: real, y: real, a: real, b: real)
    ensures EmaStep(alpha, x - y, a - b) == EmaStep(alpha, x, a) - EmaStep(alpha, y, b)
  {
    assert alpha * (x - y) == alpha * x - alpha * y;
    assert (1.0 - alpha) * (a - b) == (1.0 - alpha) * a - (1.0 - alpha) * b;
  }

  /** The three MACD columns. */
  datatype MacdColumns = MacdColumns(macd: seq<real>, signal: seq<real>, histogram: seq<real>)

  /** `MACD = EMA12 - EMA26`, `Signal = EMA9(MACD)`, `MACD_Histogram = MACD - Signal`. */
  function ComputeMacd(close: seq<real>): (m: MacdColumns)
    ensures |m.macd| == |close| && |m.signal| == |close| && |m.histogram| == |close|
  {
    var line := Minus(Ema(close, 12), Ema(close, 26));
    var signal := Ema(line, 9);
    MacdColumns(line, signal, Minus(line, signal))
  }

  /** At every row the histogram is the gap between the MACD line and its signal line, and
      the signal line is the difference of the 9-span averages of the two price averages. */
  lemma MacdHistogram(close: seq<real>, i: nat)
    requires i < |close|
    ensures ComputeMacd(close).histogram[i] == ComputeMacd(close).macd[i] - ComputeMacd(close).signal[i]
    ensures ComputeMacd(close).signal[i] ==
      Ema(Ema(close, 12), 9)[i] - Ema(Ema(close, 26), 9)[i]
  {
    EmaOfDifference(Ema(close, 12), Ema(close, 26), Alpha(9), i);
  }

  /** A flat close column has a zero MACD line, signal and histogram. */
  lemma MacdFlat(close: seq<real>, i: nat)
    requires i < |close|
    requires forall k :: 0 <= k < |close| ==> close[k] == close[0]
    ensures ComputeMacd(close).macd[i] == 0.0
    ensures ComputeMacd(close).signal[i] == 0.0
    ensures ComputeMacd(close).histogram[i] == 0.0
  {
    var line := ComputeMacd(close).macd;
    forall k | 0 <= k < |close| ensures line[k] == 0.0 {
      EmaConstant(close, 12, close[0], k);
      EmaConstant(close, 26, close[0], k);
    }
    EmaConstant(line, 9, 0.0, i);
  }
}
