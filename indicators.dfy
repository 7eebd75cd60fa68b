/** `calculate_all_indicators`: the data frame of one instrument, to which every
    `calculate_*` step adds its columns in place. */
module Indicators {
  import opened Wrappers
  import opened Numeric
  import opened Series
  import opened Rolling
  import opened Rsi
  import opened Macd
  import opened Bollinger
  import opened Stochastic
  import opened Volume
  import opened Atr
  import opened Weekly

  /** The derived columns of the frame. `rsi` holds `RSI_{period}` and `sma` holds
      `SMA{period}`, keyed by their period as the column names are. `bands` holds
      `SMA20` with the square of `STD20`. */
  datatype Columns = Columns(
    rsi: map<nat, seq<Option<real>>>,
    macd: seq<real>, signal: seq<real>, histogram: seq<real>,
    bands: seq<Option<Band>>,
    sma: map<nat, seq<Option<real>>>,
    lowestLow: seq<Option<real>>, highestHigh: seq<Option<real>>, percentK: seq<Option<Ext>>,
    obv: seq<int>,
    trueRange: seq<real>, atr: seq<Option<real>>,
    vwap: seq<Option<real>>,
    volumeChange: seq<Option<Ext>>,
    weeklyRsi: seq<Option<real>>)

  /** The frame as the data source delivers it: no derived column yet. */
  function NoColumns(): Columns
  {
    Columns(map[], [], [], [], [], map[], [], [], [], [], [], [], [], [], [])
  }

  /** Every column `calculate_all_indicators` leaves in the frame, as functions of the
      bars. */
  function Annotate(bars: seq<Bar>): (c: Columns)
    ensures c.rsi.Keys == {14, 5} && c.sma.Keys == {5, 10, 50, 200}
    ensures |c.rsi[14]| == |c.rsi[5]| == |c.macd| == |c.signal| == |c.histogram| == |bars|
    ensures |c.bands| == |c.sma[5]| == |c.sma[10]| == |c.sma[50]| == |c.sma[200]| == |bars|
    ensures |c.lowestLow| == |c.highestHigh| == |c.percentK| == |c.obv| == |bars|
    ensures |c.trueRange| == |c.atr| == |c.vwap| == |c.volumeChange| == |c.weeklyRsi| == |bars|
  {
    var close := Closes(bars);
    var m := ComputeMacd(close);
    Columns(
      map[14 := RsiSpec(close, 14), 5 := RsiSpec(close, 5)],
      m.macd, m.signal, m.histogram,
      Bands(close, 20),
      map[5 := RollingMean(close, 5), 10 := RollingMean(close, 10),
          50 := RollingMean(close, 50), 200 := RollingMean(close, 200)],
      RollingMin(Lows(bars), 14), RollingMax(Highs(bars), 14), PercentK(bars, 14),
      Obv(bars),
      TrueRange(bars), AverageTrueRange(bars, 14),
      Vwap(bars),
      VolumeChange(bars),
      FilledWeeklyRsi(bars, 14))
  }

  /** The indicator columns at row i are computed from the bars up to row i only, so
      the latest row never reads ahead of what was known on its date. */
  lemma AnnotateCausal(bars: seq<Bar>, i: nat)
    requires i < |bars| && Chronological(bars)
    ensures Annotate(bars).rsi[14][i] == Annotate(bars[..i + 1]).rsi[14][i]
    ensures Annotate(bars).rsi[5][i] == Annotate(bars[..i + 1]).rsi[5][i]
    ensures Annotate(bars).weeklyRsi[i] == Annotate(bars[..i + 1]).weeklyRsi[i]
  {
    var cut := bars[..i + 1];
    assert Closes(bars)[..i + 1] == Closes(cut)[..i + 1];
    RsiCausal(Closes(bars), Closes(cut), 14, i);
    RsiCausal(Closes(bars), Closes(cut), 5, i);
    FilledWeeklyRsiCausal(bars, 14, i);
  }

  /** Writing two columns one after the other is merging them into the frame. */
  lemma MergeTwo<V>(m: map<nat, V>, k1: nat, v1: V, k2: nat, v2: V)
    requires k1 != k2
    ensures m[k1 := v1][k2 := v2] == m + map[k1 := v1, k2 := v2]
  {
    var l, r := m[k1 := v1][k2 := v2], m + map[k1 := v1, k2 := v2];
    assert l.Keys == r.Keys;
    forall k | k in l.Keys ensures l[k] == r[k] {
    }
  }

  lemma MergeFour<V>(m: map<nat, V>, k1: nat, v1: V, k2: nat, v2: V, k3: nat, v3: V, k4: nat, v4: V)
    requires k1 != k2 && k1 != k3 && k1 != k4 && k2 != k3 && k2 != k4 && k3 != k4
    ensures m[k1 := v1][k2 := v2][k3 := v3][k4 := v4] == m + map[k1 := v1, k2 := v2, k3 := v3, k4 := v4]
  {
    var l, r := m[k1 := v1][k2 := v2][k3 := v3][k4 := v4], m + map[k1 := v1, k2 := v2, k3 := v3, k4 := v4];
    assert l.Keys == r.Keys;
    forall k | k in l.Keys ensures l[k] == r[k] {
    }
  }

  class Frame {
    /** `Open`, `High`, `Low`, `Close` and `Volume`, which no step changes. */
    const bars: seq<Bar>
    var rsi: map<nat, seq<Option<real>>>
    var macd: seq<real>
    var signal: seq<real>
    var histogram: seq<real>
    var bands: seq<Option<Band>>
    var sma: map<nat, seq<Option<real>>>
    var lowestLow: seq<Option<real>>
    var highestHigh: seq<Option<real>>
    var percentK: seq<Option<Ext>>
    var obv: seq<int>
    var trueRange: seq<real>
    var atr: seq<Option<real>>
    var vwap: seq<Option<real>>
    var volumeChange: seq<Option<Ext>>
    var weeklyRsi: seq<Option<real>>

    function Derived(): Columns
      reads this
    {
      Columns(rsi, macd, signal, histogram, bands, sma, lowestLow, highestHigh, percentK,
        obv, trueRange, atr, vwap, volumeChange, weeklyRsi)
    }

    /** The frame `get_stock_data` returns. */
    constructor (bars: seq<Bar>)
      ensures this.bars == bars && Derived() == NoColumns()
    {
      this.bars := bars;
      rsi, macd, signal, histogram := map[], [], [], [];
      bands, sma := [], map[];
      lowestLow, highestHigh, percentK := [], [], [];
      obv, trueRange, atr, vwap, volumeChange, weeklyRsi := [], [], [], [], [], [];
    }

    /** `calculate_rsi(df, period)`: adds `RSI_{period}`. */
    method CalculateRsi(period: nat)
      requires period >= 1
      modifies this
      ensures Derived() == old(Derived()).(rsi := old(rsi)[period := RsiSpec(Closes(bars), period)])
    {
      var column := ComputeRsi(Closes(bars), period);
      rsi := rsi[period := column];
    }

    /** `calculate_macd(df)`: adds `MACD`, `Signal` and `MACD_Histogram`. */
    method CalculateMacd()
      modifies this
      ensures Derived() == old(Derived()).(macd := ComputeMacd(Closes(bars)).macd,
        signal := ComputeMacd(Closes(bars)).signal, histogram := ComputeMacd(Closes(bars)).histogram)
    {
      var m := ComputeMacd(Closes(bars));
      macd, signal, histogram := m.macd, m.signal, m.histogram;
    }

    /** `calculate_bollinger_bands(df, period)`: adds `SMA20` and `STD20` (and the band
      columns derived from them). */
    method CalculateBollingerBands(period: nat)
      requires period >= 2
      modifies this
      ensures Derived() == old(Derived()).(bands := Bands(Closes(bars), period))
    {
      bands := Bands(Closes(bars), period);
    }

    /** `calculate_sma(df, period)`: adds `SMA{period}`. */
    method CalculateSma(period: nat)
      requires period >= 1
      modifies this
      ensures Derived() == old(Derived()).(sma := old(sma)[period := RollingMean(Closes(bars), period)])
    {
      sma := sma[period := RollingMean(Closes(bars), period)];
    }

    /** `calculate_stochastic_oscillator(df, period)`: adds `Lowest_Low`, `Highest_High`
        and `Percent_K`. */
    method CalculateStochasticOscillator(period: nat)
      requires period >= 1
      modifies this
      ensures Derived() == old(Derived()).(lowestLow := RollingMin(Lows(bars), period),
        highestHigh := RollingMax(Highs(bars), period), percentK := PercentK(bars, period))
    {
      lowestLow := RollingMin(Lows(bars), period);
      highestHigh := RollingMax(Highs(bars), period);
      percentK := PercentK(bars, period);
    }

    /** `calculate_obv(df)`: adds `OBV`. */
    method CalculateObv()
      modifies this
      ensures Derived() == old(Derived()).(obv := Obv(bars))
    {
      obv := Obv(bars);
    }

    /** `calculate_atr(df, period)`: adds `TR` (with the three distances it is the
        maximum of) and `ATR`. */
    method CalculateAtr(period: nat)
      requires period >= 1
      modifies this
      ensures Derived() == old(Derived()).(trueRange := TrueRange(bars), atr := AverageTrueRange(bars, period))
    {
      trueRange := TrueRange(bars);
      atr := AverageTrueRange(bars, period);
    }

    /** `calculate_vwap(df)`: adds `VWAP`. */
    method CalculateVwap()
      modifies this
      ensures Derived() == old(Derived()).(vwap := Vwap(bars))
    {
      vwap := Vwap(bars);
    }

    /** `calculate_volume_change(df)`: adds `Volume_Change`. */
    method CalculateVolumeChange()
      modifies this
      ensures Derived() == old(Derived()).(volumeChange := VolumeChange(bars))
    {
      volumeChange := VolumeChange(bars);
    }

    /** `calculate_weekly_rsi(df, period)`: the RSI of the weekly resampling, one value
        per week; the frame itself is left alone. */
    method CalculateWeeklyRsi(period: nat) returns (weekly: seq<Option<real>>)
      requires period >= 1
      ensures weekly == WeeklyRsi(bars, period)
    {
      weekly := ComputeRsi(WeeklyCloses(Resample(bars)), period);
    }

    /** `calculate_all_indicators(df)`: afterwards the frame holds the columns `Annotate`
        describes; `RSI_*` and `SMA*` columns of other periods already in the frame are
        kept. On a frame fresh from the data source that is exactly `Annotate`. */
    method CalculateAllIndicators()
      modifies this
      ensures Derived() == Annotate(bars).(rsi := old(rsi) + Annotate(bars).rsi, sma := old(sma) + Annotate(bars).sma)
      ensures old(Derived()) == NoColumns() ==> Derived() == Annotate(bars)
    {
      CalculateRsi(14);
      CalculateRsi(5);
      CalculateMacd();
      CalculateBollingerBands(20);
      CalculateSma(5);
      CalculateSma(10);
      CalculateSma(50);
      CalculateSma(200);
      CalculateStochasticOscillator(14);
      CalculateObv();
      CalculateAtr(14);
      CalculateVwap();
      CalculateVolumeChange();
      var weekly := CalculateWeeklyRsi(14);
      weeklyRsi := Reindex(bars, weekly);
      var close := Closes(bars);
      MergeTwo(old(rsi), 14, RsiSpec(close, 14), 5, RsiSpec(close, 5));
      MergeFour(old(sma), 5, RollingMean(close, 5), 10, RollingMean(close, 10),
        50, RollingMean(close, 50), 200, RollingMean(close, 200));
    }
  }
}
