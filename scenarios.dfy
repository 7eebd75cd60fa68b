/** Whole-pipeline consequences: what the scorer concludes on a few kinds of market. */
module Scenarios {
  import opened Wrappers
  import opened Numeric
  import opened Series
  import opened Rolling
  import opened Rsi
  import opened Macd
  import opened Bollinger
  import opened Stochastic
  import opened Volume
  import opened Weekly
  import opened Indicators
  import opened Signals
  import opened Recommendation
  import opened Analysis

  /** The last row of the annotated frame, column by column. */
  lemma LatestCells(bars: seq<Bar>)
    requires |bars| > 0
    ensures
      var i, close := |bars| - 1, Closes(bars);
      Aligned(Annotate(bars), |bars|) &&
      Latest(bars, Annotate(bars)) == Row(RsiSpec(close, 14)[i], FilledWeeklyRsi(bars, 14)[i], RsiSpec(close, 5)[i],
        ComputeMacd(close).histogram[i], PercentK(bars, 14)[i], VolumeChange(bars)[i], Bands(close, 20)[i],
        RollingMean(close, 5)[i], RollingMean(close, 10)[i], bars[i].close, Vwap(bars)[i])
  {
    AnnotateAligned(bars);
  }

  /** A Fear & Greed reading that neither block test accepts, or none at all. */
  predicate Neutral(fearGreed: Option<real>)
  {
    fearGreed.None? || 20.0 < fearGreed.value < 81.0
  }

  /** A row on which every cell but the Bollinger band is NaN, or balanced so that
      neither comparison of its block holds, and the band is narrow. */
  predicate Quiet(row: Row)
  {
    row.rsi14.None? && row.weeklyRsi.None? && row.rsi5.None? &&
    row.histogram == 0.0 && row.percentK.None? &&
    (row.volumeChange.None? || row.volumeChange == Some(Finite(0.0))) &&
    Narrow(row.band) && row.sma5 == row.sma10 &&
    (row.vwap.None? || row.vwap == Some(row.close))
  }

  /** On a quiet row only the Bollinger width block votes. */
  lemma OnlyBandVotes(row: Row, fearGreed: Option<real>)
    requires Neutral(fearGreed) && Quiet(row)
    ensures SignalsOf(row, fearGreed) == Signals(["BB Width < 0.05 (Low Volatility)"], [], 10, 0)
  {
    TallyAll(row, fearGreed);
  }

  /** A history in which nothing moves: every price of every bar is c and every bar
      trades the same volume. */
  predicate Flat(bars: seq<Bar>, c: real)
  {
    forall k :: 0 <= k < |bars| ==>
      bars[k].open == c && bars[k].high == c && bars[k].low == c && bars[k].close == c &&
      bars[k].volume == bars[0].volume
  }

  /** On a flat history of at least twenty bars every indicator is NaN or balanced,
      except the Bollinger width, which is 0 and so below 0.05: the buy side scores
      0.10 and the verdict is Buy, not Hold. */
  lemma FlatHistory(bars: seq<Bar>, c: real, fearGreed: Option<real>)
    requires |bars| >= 20 && c > 0.0 && Flat(bars, c) && Neutral(fearGreed)
    ensures ReportOf(bars, fearGreed) ==
      Some(Report(Signals(["BB Width < 0.05 (Low Volatility)"], [], 10, 0), Buy, ExplanationOf(Buy)))
  {
    FlatRow(bars, c);
    OnlyBandVotes(Latest(bars, Annotate(bars)), fearGreed);
  }

  /** The last row of a flat history of at least twenty bars is quiet. */
  lemma FlatRow(bars: seq<Bar>, c: real)
    requires |bars| >= 20 && c > 0.0 && Flat(bars, c)
    ensures Aligned(Annotate(bars), |bars|) && Quiet(Latest(bars, Annotate(bars)))
  {
    var i := |bars| - 1;
    var close := Closes(bars);
    assert forall k :: 0 <= k < |close| ==> close[k] == close[0];
    RsiFlat(close, 14, i);
    RsiFlat(close, 5, i);
    WeeklyFlat(bars, c, i);
    MacdFlat(close, i);
    FlatStochastic(bars, c, i);
    FlatVolume(bars, i);
    BandsConstant(close, 20, c, i);
    RollingMeanConstant(close, 5, c, i);
    RollingMeanConstant(close, 10, c, i);
    FlatVwap(bars, c, i);
    LatestCells(bars);
  }

  /** Flat daily closes give flat weekly closes, whose RSI is NaN throughout, and so
      does the filled daily column. */
  lemma WeeklyFlat(bars: seq<Bar>, c: real, i: nat)
    requires i < |bars| && Flat(bars, c)
    ensures FilledWeeklyRsi(bars, 14)[i] == None
  {
    ResampleCloses(bars, c, c);
    var weekly := WeeklyCloses(Resample(bars));
    FilledCell(bars, 14, i);
    forall j | 0 <= j < |weekly|
      ensures RsiSpec(weekly, 14)[j] == None
    {
      RsiFlat(weekly, 14, j);
    }
  }

  /** A flat window has its highest high equal to its lowest low: %K is 0/0, NaN. */
  lemma FlatStochastic(bars: seq<Bar>, c: real, i: nat)
    requires 14 <= i + 1 && i < |bars| && Flat(bars, c)
    ensures PercentK(bars, 14)[i] == None
  {
    assert Consistent(bars[i]);
    PercentKCell(bars, 14, i);
    RollingMinAt(Lows(bars), 14, i);
    RollingMaxAt(Highs(bars), 14, i);
  }

  /** An unchanged volume changes by 0, or by 0/0 if it is zero. */
  lemma FlatVolume(bars: seq<Bar>, i: nat)
    requires 0 < i < |bars| && bars[i].volume == bars[i - 1].volume
    ensures VolumeChange(bars)[i] == None || VolumeChange(bars)[i] == Some(Finite(0.0))
  {
    VolumeChangeCell(bars, i);
  }

  /** Every typical price is c, so the VWAP is c once anything has traded. */
  lemma FlatVwap(bars: seq<Bar>, c: real, i: nat)
    requires i < |bars| && Flat(bars, c)
    ensures Vwap(bars)[i].None? || Vwap(bars)[i] == Some(c)
  {
    forall k | 0 <= k <= i
      ensures c <= TypicalPrice(bars[k]) <= c
    {
      assert TypicalPrice(bars[k]) == (c + c + c) / 3.0;
    }
    VwapCell(bars, i, c, c);
  }

  /** Extreme fear on a row where no indicator votes: the buy side scores 0.05 and the
      verdict is Buy. */
  lemma ExtremeFearAlone(row: Row, reading: real)
    requires reading <= 20.0
    requires forall r :: r != FearGreedRule ==> Decide(r, row, Some(reading)) == None
    ensures SignalsOf(row, Some(reading)) == Signals(["Fear & Greed Index ≤ 20 (Extreme Fear)"], [], 5, 0)
    ensures Recommend(SignalsOf(row, Some(reading)).buyPoints, SignalsOf(row, Some(reading)).sellPoints) == Buy
  {
    TallyAll(row, Some(reading));
  }

  /** A daily and a short RSI of at least 70 put both overbought labels on the sell
      list, whatever the other cells hold. */
  lemma OverboughtRow(row: Row, fearGreed: Option<real>)
    requires row.rsi14.Some? && row.rsi14.value >= 70.0
    requires row.rsi5.Some? && row.rsi5.value >= 70.0
    ensures "Daily RSI ≥ 70 (Overbought)" in SignalsOf(row, fearGreed).sellSignals
    ensures "Short RSI ≥ 70 (Overbought)" in SignalsOf(row, fearGreed).sellSignals
  {
    assert Decide(DailyRsiRule, row, fearGreed) == Some(SellSide);
    assert Decide(ShortRsiRule, row, fearGreed) == Some(SellSide);
    Listed(AllRules, row, fearGreed, DailyRsiRule, SellSide);
    Listed(AllRules, row, fearGreed, ShortRsiRule, SellSide);
  }

  /** On a history whose close rises every day the average loss is 0 and the average
      gain positive, so both the daily and the short RSI are 100: both are overbought
      sell signals. */
  lemma RisingHistory(bars: seq<Bar>, fearGreed: Option<real>)
    requires |bars| >= 14
    requires forall k :: 0 < k < |bars| ==> bars[k].close > bars[k - 1].close
    ensures "Daily RSI ≥ 70 (Overbought)" in ReportOf(bars, fearGreed).value.signals.sellSignals
    ensures "Short RSI ≥ 70 (Overbought)" in ReportOf(bars, fearGreed).value.signals.sellSignals
  {
    var i := |bars| - 1;
    var close := Closes(bars);
    RsiRising(close, 14, i);
    RsiRising(close, 5, i);
    LatestCells(bars);
    AnnotateAligned(bars);
    OverboughtRow(Latest(bars, Annotate(bars)), fearGreed);
  }
}
