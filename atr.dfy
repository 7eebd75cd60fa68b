/** The average true range: the rolling mean of each bar's true range, the largest of
    its own high-low span and its distances from the previous close. */
module Atr {
  import opened Wrappers
  import opened Numeric
  import opened Series
  import opened Rolling

  function Abs(x: real): real
  {
    if x < 0.0 then -x else x
  }

  function Max(a: real, b: real): real
  {
    if a < b then b else a
  }

  function Min(a: real, b: real): real
  {
    if a < b then a else b
  }

  /** `TR`: the row-wise maximum of `H-L`, `H-PC` and `L-PC`. On the first row there is
      no previous close, the two distances are NaN and the maximum skips them. */
  function TrueRange(bars: seq<Bar>): (tr: seq<real>)
    ensures |tr| == |bars|
    ensures |bars| > 0 ==> tr[0] == bars[0].high - bars[0].low
  {
    seq(|bars|, i requires 0 <= i < |bars| =>
      var b := bars[i];
      if i == 0 then b.high - b.low
      else Max(Max(b.high - b.low, Abs(b.high - bars[i - 1].close)), Abs(b.low - bars[i - 1].close)))
  }

  /** `ATR`: the rolling mean of the true range. */
  function AverageTrueRange(bars: seq<Bar>, period: nat): (atr: seq<Option<real>>)
    requires period >= 1
    ensures |atr| == |bars|
  {
    RollingMean(TrueRange(bars), period)
  }

  /** On a bar that keeps the price relation the true range is the span from the lower
      of its low and the previous close to the higher of its high and the previous close:
      the previous close widens the bar's range when it lies outside it. It is never less
      than the bar's own span, hence non-negative. */
  lemma TrueRangeSpan(bars: seq<Bar>, i: nat)
    requires 0 < i < |bars| && Consistent(bars[i])
    ensures TrueRange(bars)[i] ==
      Max(bars[i].high, bars[i - 1].close) - Min(bars[i].low, bars[i - 1].close)
    ensures TrueRange(bars)[i] >= bars[i].high - bars[i].low >= 0.0
  {
  }

  /** The true range of a consistent bar is non-negative: on the first row it is the
      bar's own span, later it is at least that span. */
  lemma TrueRangeNonnegative(bars: seq<Bar>, i: nat)
    requires i < |bars| && Consistent(bars[i])
    ensures i == 0 ==> TrueRange(bars)[i] == bars[i].high - bars[i].low
    ensures TrueRange(bars)[i] >= 0.0
  {
    if i > 0 {
      TrueRangeSpan(bars, i);
    }
  }

  /** Every true range of a consistent history is non-negative. */
  lemma AllNonnegative(bars: seq<Bar>)
    requires AllConsistent(bars)
    ensures forall k :: 0 <= k < |bars| ==> TrueRange(bars)[k] >= 0.0
  {
    forall k | 0 <= k < |bars|
      ensures TrueRange(bars)[k] >= 0.0
    {
      TrueRangeNonnegative(bars, k);
    }
  }

  /** On consistent bars the ATR is defined once a full window is available, and is
      then non-negative and no larger than the largest true range in the window. */
  lemma AtrCell(bars: seq<Bar>, period: nat, i: nat, hi: real)
    requires period >= 1 && period - 1 <= i < |bars| && AllConsistent(bars)
    requires forall k :: i + 1 - period <= k <= i ==> TrueRange(bars)[k] <= hi
    ensures AverageTrueRange(bars, period)[i].Some?
    ensures 0.0 <= AverageTrueRange(bars, period)[i].value <= hi
  {
    var tr := TrueRange(bars);
    var lo := i + 1 - period;
    var w := tr[lo..i + 1];
    AllNonnegative(bars);
    assert forall k :: 0 <= k < |w| ==> w[k] == tr[k + lo];
    RollingMeanAt(tr, period, i);
    MeanWithin(w, 0.0, hi);
  }
}
