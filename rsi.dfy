/** Wilder's relative strength index as computed by `calculate_rsi`: a rolling-mean seed
    for the average gain and loss, then Wilder's recursive smoothing written over the
    seeded columns in place. */
module Rsi {
  import opened Wrappers
  import opened Numeric
  import opened Rolling

  /** `delta.where(delta > 0, 0)` for `delta = close.diff()`: the first difference is
      NaN, which fails the test and becomes 0. */
  function Gains(c: seq<real>): (g: seq<real>)
    ensures |g| == |c|
    ensures forall i :: 0 <= i < |g| ==> g[i] >= 0.0
    ensures |c| > 0 ==> g[0] == 0.0
  {
    seq(|c|, i requires 0 <= i < |c| =>
      if i > 0 && c[i] - c[i - 1] > 0.0 then c[i] - c[i - 1] else 0.0)
  }

  /** `-delta.where(delta < 0, 0)`. */
  function Losses(c: seq<real>): (l: seq<real>)
    ensures |l| == |c|
    ensures forall i :: 0 <= i < |l| ==> l[i] >= 0.0
    ensures |c| > 0 ==> l[0] == 0.0
  {
    seq(|c|, i requires 0 <= i < |c| =>
      if i > 0 && c[i] - c[i - 1] < 0.0 then -(c[i] - c[i - 1]) else 0.0)
  }

  /** Each day's price change splits into its gain and its loss, and at most one of the
      two is non-zero. */
  lemma ChangeSplits(c: seq<real>, i: nat)
    requires 0 < i < |c|
    ensures Gains(c)[i] - Losses(c)[i] == c[i] - c[i - 1]
    ensures Gains(c)[i] == 0.0 || Losses(c)[i] == 0.0
  {
  }

  /** One step of Wilder's smoothing: `(prev * (p - 1) + x) / p`. */
  function Step(a: real, x: real, p: nat): real
    requires p >= 1
  {
    (a * ((p - 1) as real) + x) / (p as real)
  }

  /** The smoothing step applied to a cell; a NaN previous average stays NaN. */
  function Smooth(prev: Option<real>, x: real, p: nat): Option<real>
    requires p >= 1
  {
    match prev
    case Some(a) => Some(Step(a, x, p))
    case None => None
  }

  /** A step between two values that lie in [lo, hi] stays in [lo, hi]. */
  lemma SmoothWithin(a: real, x: real, p: nat, lo: real, hi: real)
    requires p >= 1
    requires lo <= a <= hi && lo <= x <= hi
    ensures lo <= Step(a, x, p) <= hi
  {
    var q := (p - 1) as real;
    assert (a - lo) * q >= 0.0 && (hi - a) * q >= 0.0;
    assert a * q - lo * q == (a - lo) * q && hi * q - a * q == (hi - a) * q;
    assert (p as real) * lo == lo * q + lo && (p as real) * hi == hi * q + hi;
    QuotientBounds(a * q + x, p as real, lo, hi);
  }

  /** Wilder's average at index i: the mean of the first p values at index p - 1, the
      smoothing step after that. */
  function Wilder(xs: seq<real>, p: nat, i: nat): real
    requires 1 <= p && p - 1 <= i < |xs|
    decreases i
  {
    if i == p - 1 then Mean(xs[..p]) else Step(Wilder(xs, p, i - 1), xs[i], p)
  }

  /** Wilder's average stays within any bounds of the values it averages. */
  lemma {:induction false} WilderWithin(xs: seq<real>, p: nat, i: nat, lo: real, hi: real)
    requires 1 <= p && p - 1 <= i < |xs|
    requires forall k :: 0 <= k <= i ==> lo <= xs[k] <= hi
    ensures lo <= Wilder(xs, p, i) <= hi
    decreases i
  {
    if i == p - 1 {
      MeanWithin(xs[..p], lo, hi);
      assert Wilder(xs, p, i) == Mean(xs[..p]);
    } else {
      WilderWithin(xs, p, i - 1, lo, hi);
      SmoothWithin(Wilder(xs, p, i - 1), xs[i], p, lo, hi);
    }
  }

  /** The column of Wilder averages, NaN before index p - 1. */
  function WilderAverages(xs: seq<real>, p: nat): (r: seq<Option<real>>)
    requires p >= 1
    ensures |r| == |xs|
    ensures forall i :: 0 <= i < |xs| ==> (r[i].Some? <==> i + 1 >= p)
  {
    seq(|xs|, i requires 0 <= i < |xs| => if i + 1 < p then None else Some(Wilder(xs, p, i)))
  }

  /** Averages of non-negative values are non-negative. */
  lemma WilderAveragesNonnegative(xs: seq<real>, p: nat)
    requires p >= 1
    requires forall k :: 0 <= k < |xs| ==> xs[k] >= 0.0
    ensures forall i :: 0 <= i < |xs| && WilderAverages(xs, p)[i].Some? ==>
      WilderAverages(xs, p)[i].value >= 0.0
  {
    forall i | 0 <= i < |xs| && WilderAverages(xs, p)[i].Some?
      ensures WilderAverages(xs, p)[i].value >= 0.0
    {
      WilderWithin(xs, p, i, 0.0, MaxOf(xs));
    }
  }

  /** `100 - 100 / (1 + avg_gain / avg_loss)` with pandas' division: a zero average
      loss makes the ratio +inf and the index 100, unless the average gain is zero as
      well, when the ratio is 0/0 = NaN. */
  function RsiValue(g: real, l: real): (r: Option<real>)
    requires g >= 0.0 && l >= 0.0
    ensures r.None? <==> g == 0.0 && l == 0.0
    ensures r.Some? ==> 0.0 <= r.value <= 100.0
    ensures l == 0.0 && g > 0.0 ==> r == Some(100.0)
    ensures l > 0.0 ==> r == Some(100.0 * g / (g + l))
  {
    if l > 0.0 then
      RsiClosedForm(g, l);
      Some(100.0 - 100.0 / (1.0 + g / l))
    else if g > 0.0 then Some(100.0)
    else None
  }

  /** For a positive average loss, the index is the gains' share of the total movement. */
  lemma RsiClosedForm(g: real, l: real)
    requires g >= 0.0 && l > 0.0
    ensures 100.0 - 100.0 / (1.0 + g / l) == 100.0 * g / (g + l)
    ensures 0.0 <= 100.0 * g / (g + l) <= 100.0
  {
    var s := g + l;
    var t := g / l;
    assert t * l == g;
    var u := 1.0 + t;
    assert u * l == l + t * l == s;
    var v := 100.0 / u;
    assert v * u == 100.0;
    assert v * s == v * (u * l) == (v * u) * l == 100.0 * l;
    var r := 100.0 - v;
    assert r * s == 100.0 * s - v * s == 100.0 * g;
    var w := 100.0 * g / s;
    assert w * s == 100.0 * g;
    assert r == (r * s) / s && w == (w * s) / s;
    assert r == w;
    QuotientBounds(100.0 * g, s, 0.0, 100.0);
  }

  /** The index at one row from the two averages, NaN when either is NaN. */
  function RsiOf(g: Option<real>, l: Option<real>): Option<real>
    requires g.Some? ==> g.value >= 0.0
    requires l.Some? ==> l.value >= 0.0
  {
    if g.Some? && l.Some? then RsiValue(g.value, l.value) else None
  }

  /** The RSI column of a close column for look-back p. */
  function RsiSpec(c: seq<real>, p: nat): (r: seq<Option<real>>)
    requires p >= 1
    ensures |r| == |c|
  {
    var ag := WilderAverages(Gains(c), p);
    var al := WilderAverages(Losses(c), p);
    WilderAveragesNonnegative(Gains(c), p);
    WilderAveragesNonnegative(Losses(c), p);
    seq(|c|, i requires 0 <= i < |c| => RsiOf(ag[i], al[i]))
  }

  /** Up to index p - 1 the rolling-mean seed and Wilder's averages agree: NaN before it,
      the mean of the first p values at it. */
  lemma SeedIsWilder(xs: seq<real>, p: nat)
    requires p >= 1
    ensures forall k :: 0 <= k < |xs| && k < p ==> RollingMean(xs, p)[k] == WilderAverages(xs, p)[k]
  {
    if p <= |xs| {
      RollingMeanAt(xs, p, p - 1);
      assert xs[p - p..p] == xs[..p];
    }
  }

  /** One overwrite of the loop: from index p on, the average cell is the smoothing
      step applied to the cell before it. */
  lemma WilderSmooth(xs: seq<real>, p: nat, i: nat)
    requires 1 <= p <= i < |xs|
    ensures WilderAverages(xs, p)[i] == Smooth(WilderAverages(xs, p)[i - 1], xs[i], p)
  {
  }

  /** `calculate_rsi(df, period)`: the seeds are rolling means, and the loop over
      rows period .. n-1 overwrites each average with the smoothing step applied to the
      one before it. */
  method ComputeRsi(close: seq<real>, period: nat) returns (rsi: seq<Option<real>>)
    requires period >= 1
    ensures rsi == RsiSpec(close, period)
  {
    var n := |close|;
    var gain, loss := Gains(close), Losses(close);
    var seedGain, seedLoss := RollingMean(gain, period), RollingMean(loss, period);
    ghost var wg, wl := WilderAverages(gain, period), WilderAverages(loss, period);
    SeedIsWilder(gain, period);
    SeedIsWilder(loss, period);
    forall k | period <= k < n
      ensures wg[k] == Smooth(wg[k - 1], gain[k], period) && wl[k] == Smooth(wl[k - 1], loss[k], period)
    {
      WilderSmooth(gain, period, k);
      WilderSmooth(loss, period, k);
    }
    var g, l := SmoothSeeds(gain, loss, period, seedGain, seedLoss, wg, wl);
    WilderAveragesNonnegative(gain, period);
    WilderAveragesNonnegative(loss, period);
    rsi := seq(n, k requires 0 <= k < n => RsiOf(g[k], l[k]));
  }

  /** The loop of `calculate_rsi` on the two seeded columns, written over them in place
      in arrays. Whatever the columns stand for, if the seeds agree with two target
      columns before row `period` and the targets follow the smoothing step from there,
      the loop leaves exactly the targets. */
  method SmoothSeeds(gain: seq<real>, loss: seq<real>, period: nat,
    seedGain: seq<Option<real>>, seedLoss: seq<Option<real>>,
    ghost wg: seq<Option<real>>, ghost wl: seq<Option<real>>)
    returns (g: seq<Option<real>>, l: seq<Option<real>>)
    requires period >= 1
    requires |loss| == |seedGain| == |seedLoss| == |wg| == |wl| == |gain|
    requires forall k :: 0 <= k < |gain| && k < period ==> seedGain[k] == wg[k] && seedLoss[k] == wl[k]
    requires forall k :: period <= k < |gain| ==>
      wg[k] == Smooth(wg[k - 1], gain[k], period) && wl[k] == Smooth(wl[k - 1], loss[k], period)
    ensures g == wg && l == wl
  {
    var n := |gain|;
    var avgGain := new Option<real>[n](k requires 0 <= k < n => seedGain[k]);
    var avgLoss := new Option<real>[n](k requires 0 <= k < n => seedLoss[k]);
    var i := period;
    while i < n
      invariant period <= i
      invariant forall k :: 0 <= k < n && k < i ==> avgGain[k] == wg[k]
      invariant forall k :: 0 <= k < n && k < i ==> avgLoss[k] == wl[k]
      invariant forall k :: i <= k < n ==> avgGain[k] == seedGain[k]
      invariant forall k :: i <= k < n ==> avgLoss[k] == seedLoss[k]
      decreases n - i
    {
      avgGain[i] := Smooth(avgGain[i - 1], gain[i], period);
      avgLoss[i] := Smooth(avgLoss[i - 1], loss[i], period);
      i := i + 1;
    }
    g, l := avgGain[..], avgLoss[..];
    assert forall k :: 0 <= k < n ==> g[k] == wg[k];
    assert forall k :: 0 <= k < n ==> l[k] == wl[k];
  }

  /** The seed at index p - 1 is the mean of the first p gains (losses), the first of
      which is the 0 that replaced the NaN difference. */
  lemma RsiSeed(c: seq<real>, p: nat)
    requires 1 <= p <= |c|
    ensures Gains(c)[0] == 0.0 && Losses(c)[0] == 0.0
    ensures WilderAverages(Gains(c), p)[p - 1] == Some(Mean(Gains(c)[..p]))
    ensures WilderAverages(Losses(c), p)[p - 1] == Some(Mean(Losses(c)[..p]))
  {
  }

  /** From index p on, each average is Wilder's step from the one before it. */
  lemma RsiRecurrence(c: seq<real>, p: nat, i: nat)
    requires 1 <= p <= i < |c|
    ensures WilderAverages(Gains(c), p)[i].value ==
      (WilderAverages(Gains(c), p)[i - 1].value * ((p - 1) as real) + Gains(c)[i]) / (p as real)
    ensures WilderAverages(Losses(c), p)[i].value ==
      (WilderAverages(Losses(c), p)[i - 1].value * ((p - 1) as real) + Losses(c)[i]) / (p as real)
  {
    AverageStep(Gains(c), p, i);
    AverageStep(Losses(c), p, i);
  }

  lemma AverageStep(xs: seq<real>, p: nat, i: nat)
    requires 1 <= p <= i < |xs|
    ensures WilderAverages(xs, p)[i].value == Step(WilderAverages(xs, p)[i - 1].value, xs[i], p)
  {
    var w := WilderAverages(xs, p);
    assert w[i - 1] == Some(Wilder(xs, p, i - 1));
    assert w[i] == Some(Wilder(xs, p, i));
  }

  /** The RSI is defined exactly from index p - 1 on and where the two averages are not
      both zero; when defined it lies in [0, 100]; a zero average loss with a positive
      average gain gives exactly 100. */
  lemma RsiCell(c: seq<real>, p: nat, i: nat)
    requires 1 <= p && i < |c|
    ensures i + 1 < p ==> RsiSpec(c, p)[i] == None
    ensures i + 1 >= p ==>
      var g, l := Wilder(Gains(c), p, i), Wilder(Losses(c), p, i);
      (RsiSpec(c, p)[i].Some? <==> g + l > 0.0) &&
      (l == 0.0 && g > 0.0 ==> RsiSpec(c, p)[i] == Some(100.0)) &&
      (l > 0.0 ==> RsiSpec(c, p)[i] == Some(100.0 * g / (g + l)))
    ensures RsiSpec(c, p)[i].Some? ==> 0.0 <= RsiSpec(c, p)[i].value <= 100.0
  {
    if i + 1 >= p {
      WilderAveragesNonnegative(Gains(c), p);
      WilderAveragesNonnegative(Losses(c), p);
      assert WilderAverages(Gains(c), p)[i] == Some(Wilder(Gains(c), p, i));
      assert WilderAverages(Losses(c), p)[i] == Some(Wilder(Losses(c), p, i));
    }
  }

  /** A Wilder average of an all-zero column is zero. */
  lemma WilderOfZeros(xs: seq<real>, p: nat, i: nat)
    requires 1 <= p && p - 1 <= i < |xs|
    requires forall k :: 0 <= k < |xs| ==> xs[k] == 0.0
    ensures Wilder(xs, p, i) == 0.0
  {
    WilderWithin(xs, p, i, 0.0, 0.0);
  }

  /** A flat close column has no gains and no losses, so every RSI cell is 0/0 = NaN. */
  lemma RsiFlat(c: seq<real>, p: nat, i: nat)
    requires 1 <= p && i < |c|
    requires forall k :: 0 <= k < |c| ==> c[k] == c[0]
    ensures RsiSpec(c, p)[i] == None
  {
    RsiCell(c, p, i);
    if i + 1 >= p {
      WilderOfZeros(Gains(c), p, i);
      WilderOfZeros(Losses(c), p, i);
    }
  }

  /** A Wilder average stays positive once it is: the seed of a column whose second value
      is positive is positive, and a step never falls to zero from a positive average. */
  lemma {:induction false} WilderPositive(xs: seq<real>, p: nat, i: nat)
    requires 2 <= p && p - 1 <= i < |xs|
    requires forall k :: 0 <= k < |xs| ==> xs[k] >= 0.0
    requires xs[1] > 0.0
    ensures Wilder(xs, p, i) > 0.0
    decreases i
  {
    if i == p - 1 {
      var w := xs[..p];
      SumFirst(w);
      SumFirst(w[1..]);
      SumNonnegative(w[1..][1..]);
      QuotientPositive(Sum(w), p as real);
    } else {
      WilderPositive(xs, p, i - 1);
      StepPositive(Wilder(xs, p, i - 1), xs[i], p);
    }
  }

  /** With p >= 2 the previous average keeps a positive weight in the step. */
  lemma StepPositive(a: real, x: real, p: nat)
    requires p >= 2 && a > 0.0 && x >= 0.0
    ensures Step(a, x, p) > 0.0
  {
    var q := (p - 1) as real;
    assert a * q > 0.0;
    QuotientPositive(a * q + x, p as real);
  }

  /** A close column that rises every day has no losses, so its RSI is 100 from index
      p - 1 on (for p >= 2, so that the seed window holds a real gain). */
  lemma RsiRising(c: seq<real>, p: nat, i: nat)
    requires 2 <= p && p - 1 <= i < |c|
    requires forall k :: 0 < k < |c| ==> c[k] > c[k - 1]
    ensures RsiSpec(c, p)[i] == Some(100.0)
  {
    RsiCell(c, p, i);
    WilderOfZeros(Losses(c), p, i);
    WilderPositive(Gains(c), p, i);
  }

  /** Wilder's average at i looks only at the values up to i. */
  lemma {:induction false} WilderCausal(xs: seq<real>, ys: seq<real>, p: nat, i: nat)
    requires 1 <= p && p - 1 <= i < |xs| && i < |ys|
    requires xs[..i + 1] == ys[..i + 1]
    ensures Wilder(xs, p, i) == Wilder(ys, p, i)
    decreases i
  {
    if i == p - 1 {
      assert xs[..p] == xs[..i + 1][..p] && ys[..p] == ys[..i + 1][..p];
    } else {
      assert xs[..i] == xs[..i + 1][..i] && ys[..i] == ys[..i + 1][..i];
      assert xs[i] == xs[..i + 1][i] && ys[i] == ys[..i + 1][i];
      WilderCausal(xs, ys, p, i - 1);
    }
  }

  /** The RSI at row k is computed from the closes up to row k only: cutting the column
      after row k leaves it unchanged (no look-ahead). */
  lemma RsiCausal(c: seq<real>, d: seq<real>, p: nat, k: nat)
    requires p >= 1 && k < |c| && k < |d|
    requires c[..k + 1] == d[..k + 1]
    ensures RsiSpec(c, p)[k] == RsiSpec(d, p)[k]
  {
    if k + 1 >= p {
      assert Gains(c)[..k + 1] == Gains(d)[..k + 1] by {
        forall j | 0 <= j <= k ensures Gains(c)[j] == Gains(d)[j] {
          assert c[j] == c[..k + 1][j];
          if j > 0 { assert c[j - 1] == c[..k + 1][j - 1]; }
        }
      }
      assert Losses(c)[..k + 1] == Losses(d)[..k + 1] by {
        forall j | 0 <= j <= k ensures Losses(c)[j] == Losses(d)[j] {
          assert c[j] == c[..k + 1][j];
          if j > 0 { assert c[j - 1] == c[..k + 1][j - 1]; }
        }
      }
      WilderCausal(Gains(c), Gains(d), p, k);
      WilderCausal(Losses(c), Losses(d), p, k);
    }
  }
}
