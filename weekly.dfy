/** `calculate_weekly_rsi` and the daily `Weekly_RSI` column: the daily bars are
    aggregated into one row per week (first open, highest high, lowest low, last close,
    total volume), the 14-period RSI is computed on the weekly closes, and each daily row
    takes the value of the latest weekly row whose closing instant is not after it. */
module Weekly {
  import opened Wrappers
  import opened Numeric
  import opened Series
  import opened Rsi

  /** One row of the weekly resampling, keyed by its week. */
  datatype WeekBar = WeekBar(week: int, open: real, high: real, low: real, close: real, volume: nat)

  /** The weekly row opened by the first bar of a week. */
  function Start(b: Bar): WeekBar
  {
    WeekBar(b.stamp.week, b.open, b.high, b.low, b.close, b.volume)
  }

  /** A later bar of the same week joins the row: the open stays, the extremes widen,
      the close becomes the bar's close and the volume accumulates. */
  function Absorb(w: WeekBar, b: Bar): WeekBar
  {
    WeekBar(w.week, w.open, if b.high > w.high then b.high else w.high,
      if b.low < w.low then b.low else w.low, b.close, w.volume + b.volume)
  }

  /** `resample('W').agg(...)` over the weeks that hold at least one bar. Each bar joins
      the last row when it belongs to the same week and opens a new row otherwise. */
  function Resample(bars: seq<Bar>): (r: seq<WeekBar>)
    ensures |r| <= |bars|
    ensures |r| == 0 <==> |bars| == 0
    ensures |bars| > 0 ==> r[|r| - 1].week == bars[|bars| - 1].stamp.week
    ensures |bars| > 0 ==> r[|r| - 1].close == bars[|bars| - 1].close
  {
    if |bars| == 0 then []
    else
      var prev := Resample(bars[..|bars| - 1]);
      var b := bars[|bars| - 1];
      if |prev| > 0 && prev[|prev| - 1].week == b.stamp.week
      then prev[..|prev| - 1] + [Absorb(prev[|prev| - 1], b)]
      else prev + [Start(b)]
  }

  function WeeklyCloses(ws: seq<WeekBar>): (c: seq<real>)
    ensures |c| == |ws|
    ensures forall j :: 0 <= j < |ws| ==> c[j] == ws[j].close
  {
    seq(|ws|, j requires 0 <= j < |ws| => ws[j].close)
  }

  /** `Weekly_RSI` on the weekly rows. */
  function WeeklyRsi(bars: seq<Bar>, period: nat): (r: seq<Option<real>>)
    requires period >= 1
    ensures |r| == |Resample(bars)|
  {
    RsiSpec(WeeklyCloses(Resample(bars)), period)
  }

  /** The index of the weekly row that bar i belongs to. */
  function WeekOf(bars: seq<Bar>, i: nat): nat
    requires i < |bars|
  {
    |Resample(bars[..i + 1])| - 1
  }

  /** `reindex(df.index, method='ffill')` of a weekly column w onto the daily rows: a
      weekly row is labelled by the instant that closes its week, so a bar takes the row
      of its own week only when it is dated exactly at that instant, and otherwise the
      row of the week before; a bar in the first week that is not at its close has no
      earlier label and gets NaN. */
  function Reindex(bars: seq<Bar>, w: seq<Option<real>>): (r: seq<Option<real>>)
    requires |w| == |Resample(bars)|
    ensures |r| == |bars|
  {
    seq(|bars|, i requires 0 <= i < |bars| =>
      var j := WeekOf(bars, i);
      PrefixLength(bars, i + 1);
      if bars[i].stamp.atWeekEnd then w[j]
      else if j >= 1 then w[j - 1]
      else None)
  }

  /** The daily `Weekly_RSI` column. */
  function FilledWeeklyRsi(bars: seq<Bar>, period: nat): (r: seq<Option<real>>)
    requires period >= 1
    ensures |r| == |bars|
  {
    Reindex(bars, WeeklyRsi(bars, period))
  }

  /** p is r with at most its last row still open: every earlier row of p is final. */
  predicate Settled(p: seq<WeekBar>, r: seq<WeekBar>)
  {
    |p| <= |r| && (|p| > 0 ==> p[..|p| - 1] == r[..|p| - 1])
  }

  lemma SettledTransitive(p: seq<WeekBar>, q: seq<WeekBar>, r: seq<WeekBar>)
    requires Settled(p, q) && Settled(q, r)
    ensures Settled(p, r)
  {
    if |p| > 0 {
      assert p[..|p| - 1] == q[..|q| - 1][..|p| - 1];
    }
  }

  /** Adding one bar changes at most the last weekly row and adds at most one row. */
  lemma ResampleStep(bars: seq<Bar>)
    requires |bars| > 0
    ensures Settled(Resample(bars[..|bars| - 1]), Resample(bars))
    ensures |Resample(bars)| <= |Resample(bars[..|bars| - 1])| + 1
  {
  }

  /** The weekly rows of a prefix of the history are the rows of the whole history, the
      last of them possibly still open. */
  lemma {:induction false} ResamplePrefix(bars: seq<Bar>, m: nat)
    requires m <= |bars|
    ensures Settled(Resample(bars[..m]), Resample(bars))
    decreases |bars| - m
  {
    if m < |bars| {
      var n := |bars|;
      assert bars[..m] == bars[..n - 1][..m];
      ResamplePrefix(bars[..n - 1], m);
      ResampleStep(bars);
      SettledTransitive(Resample(bars[..m]), Resample(bars[..n - 1]), Resample(bars));
    } else {
      assert bars[..m] == bars;
    }
  }

  lemma PrefixLength(bars: seq<Bar>, m: nat)
    requires 0 < m <= |bars|
    ensures 0 < |Resample(bars[..m])| <= |Resample(bars)|
  {
    ResamplePrefix(bars, m);
  }

  /** When the bar after the prefix opens a new week, the prefix's rows are all final:
      they are exactly the first rows of the whole history. */
  lemma ResampleCut(bars: seq<Bar>, m: nat)
    requires 0 < m < |bars|
    requires bars[m].stamp.week != bars[m - 1].stamp.week
    ensures |Resample(bars[..m])| < |Resample(bars)|
    ensures Resample(bars[..m]) == Resample(bars)[..|Resample(bars[..m])|]
  {
    var p := Resample(bars[..m]);
    assert bars[..m + 1][..m] == bars[..m];
    assert bars[..m + 1][m] == bars[m];
    var q := Resample(bars[..m + 1]);
    assert q == p + [Start(bars[m])];
    ResamplePrefix(bars, m + 1);
    assert p == q[..|q| - 1];
  }

  /** Each weekly row keeps the price relation when every bar does. */
  lemma {:induction false} ResampleConsistent(bars: seq<Bar>)
    requires AllConsistent(bars)
    ensures forall j :: 0 <= j < |Resample(bars)| ==>
      var w := Resample(bars)[j];
      w.low <= w.open <= w.high && w.low <= w.close <= w.high
  {
    if |bars| > 0 {
      var n := |bars|;
      var init := bars[..n - 1];
      assert AllConsistent(init) by {
        forall i | 0 <= i < |init| ensures Consistent(init[i]) {
          assert init[i] == bars[i];
        }
      }
      ResampleConsistent(init);
      assert Consistent(bars[n - 1]);
    }
  }

  /** A weekly close is the close of one of the week's bars, so the weekly closes stay
      within any bounds that hold the daily closes. */
  lemma {:induction false} ResampleCloses(bars: seq<Bar>, lo: real, hi: real)
    requires forall i :: 0 <= i < |bars| ==> lo <= bars[i].close <= hi
    ensures forall j :: 0 <= j < |Resample(bars)| ==> lo <= Resample(bars)[j].close <= hi
  {
    if |bars| > 0 {
      var init := bars[..|bars| - 1];
      assert forall i :: 0 <= i < |init| ==> init[i] == bars[i];
      ResampleCloses(init, lo, hi);
    }
  }

  /** Under date order the weekly rows are in strictly increasing week order: one row
      per week. */
  lemma {:induction false} ResampleOrdered(bars: seq<Bar>)
    requires Chronological(bars)
    ensures forall j :: 0 < j < |Resample(bars)| ==> Resample(bars)[j - 1].week < Resample(bars)[j].week
  {
    if |bars| > 1 {
      var n := |bars|;
      var init := bars[..n - 1];
      assert Chronological(init) by {
        forall i, k | 0 <= i < k < n - 1 ensures init[i].stamp.week <= init[k].stamp.week {
          assert init[i] == bars[i] && init[k] == bars[k];
        }
        forall i | 0 <= i < n - 2 && init[i].stamp.atWeekEnd
          ensures init[i].stamp.week < init[i + 1].stamp.week
        {
          assert init[i] == bars[i] && init[i + 1] == bars[i + 1];
        }
      }
      ResampleOrdered(init);
      assert init[n - 2] == bars[n - 2];
    }
  }

  function TotalVolume(bars: seq<Bar>): nat
  {
    if |bars| == 0 then 0 else TotalVolume(bars[..|bars| - 1]) + bars[|bars| - 1].volume
  }

  function WeeklyVolume(ws: seq<WeekBar>): nat
  {
    if |ws| == 0 then 0 else WeeklyVolume(ws[..|ws| - 1]) + ws[|ws| - 1].volume
  }

  /** The weekly rows carry exactly the volume traded on the daily bars. */
  lemma {:induction false} ResampleVolume(bars: seq<Bar>)
    ensures WeeklyVolume(Resample(bars)) == TotalVolume(bars)
  {
    if |bars| > 0 {
      var n := |bars|;
      ResampleVolume(bars[..n - 1]);
      var prev, r := Resample(bars[..n - 1]), Resample(bars);
      var b := bars[n - 1];
      assert TotalVolume(bars) == TotalVolume(bars[..n - 1]) + b.volume;
      if |prev| > 0 && prev[|prev| - 1].week == b.stamp.week {
        var init, last := prev[..|prev| - 1], prev[|prev| - 1];
        assert prev == init + [last];
        assert r == init + [Absorb(last, b)];
        VolumeAppend(init, last);
        VolumeAppend(init, Absorb(last, b));
      } else {
        assert r == prev + [Start(b)];
        VolumeAppend(prev, Start(b));
      }
    }
  }

  lemma VolumeAppend(ws: seq<WeekBar>, w: WeekBar)
    ensures WeeklyVolume(ws + [w]) == WeeklyVolume(ws) + w.volume
  {
    assert (ws + [w])[..|ws|] == ws;
  }

  /** The close of a week's row is the close of the week's last bar. */
  lemma WeekCloseIsLastClose(bars: seq<Bar>, i: nat)
    requires i < |bars|
    requires i + 1 == |bars| || bars[i + 1].stamp.week != bars[i].stamp.week
    ensures WeekOf(bars, i) < |Resample(bars)|
    ensures Resample(bars)[WeekOf(bars, i)].close == bars[i].close
  {
    var p := Resample(bars[..i + 1]);
    if i + 1 < |bars| {
      ResampleCut(bars, i + 1);
    } else {
      assert bars[..i + 1] == bars;
    }
    assert p[|p| - 1].close == bars[..i + 1][i].close;
  }

  /** The row the bars of one week fold into: the first bar opens it and each later bar
      joins it. */
  function WeekRow(bs: seq<Bar>): (w: WeekBar)
    requires |bs| > 0
    ensures w.week == bs[0].stamp.week
  {
    if |bs| == 1 then Start(bs[0]) else Absorb(WeekRow(bs[..|bs| - 1]), bs[|bs| - 1])
  }

  /** The folded row holds the first open, the highest high, the lowest low, the last
      close and the total volume of the bars. */
  lemma {:induction false} WeekRowFields(bs: seq<Bar>)
    requires |bs| > 0
    ensures WeekRow(bs) ==
      WeekBar(bs[0].stamp.week, bs[0].open, MaxOf(Highs(bs)), MinOf(Lows(bs)),
        bs[|bs| - 1].close, TotalVolume(bs))
  {
    var n := |bs|;
    if n == 1 {
      assert Highs(bs) == [bs[0].high] && Lows(bs) == [bs[0].low];
      assert bs[..0] == [];
      assert TotalVolume(bs) == TotalVolume([]) + bs[0].volume;
    } else {
      var init := bs[..n - 1];
      WeekRowFields(init);
      assert init[0] == bs[0];
      assert Highs(bs)[..n - 1] == Highs(init);
      assert Lows(bs)[..n - 1] == Lows(init);
    }
  }

  /** Resample, one bar appended. */
  lemma ResampleAppend(init: seq<Bar>, b: Bar)
    ensures Resample(init + [b]) ==
      var prev := Resample(init);
      if |prev| > 0 && prev[|prev| - 1].week == b.stamp.week
      then prev[..|prev| - 1] + [Absorb(prev[|prev| - 1], b)]
      else prev + [Start(b)]
  {
    assert (init + [b])[..|init|] == init;
  }

  /** A bar of another week opens a new row, which aggregates that bar alone. */
  lemma OpenStep(init: seq<Bar>, b: Bar)
    requires |Resample(init)| == 0 || Resample(init)[|Resample(init)| - 1].week != b.stamp.week
    ensures |Resample(init + [b])| > 0
    ensures Resample(init + [b])[|Resample(init + [b])| - 1] == WeekRow([b])
  {
    ResampleAppend(init, b);
  }

  /** A bar of the open row's week joins that row. */
  lemma JoinStep(init: seq<Bar>, week: seq<Bar>, b: Bar)
    requires |Resample(init)| > 0 && |week| > 0
    requires Resample(init)[|Resample(init)| - 1] == WeekRow(week)
    requires b.stamp.week == week[0].stamp.week
    ensures |Resample(init + [b])| > 0
    ensures Resample(init + [b])[|Resample(init + [b])| - 1] == WeekRow(week + [b])
  {
    ResampleAppend(init, b);
    assert Resample(init)[|Resample(init)| - 1].week == b.stamp.week;
    assert (week + [b])[..|week|] == week;
  }

  /** Bar s opens a row of its own when it is the first bar or follows another week. */
  lemma OpenAt(bars: seq<Bar>, s: nat)
    requires s < |bars|
    requires s == 0 || bars[s - 1].stamp.week != bars[s].stamp.week
    ensures |Resample(bars[..s + 1])| > 0
    ensures Resample(bars[..s + 1])[|Resample(bars[..s + 1])| - 1] == WeekRow(bars[s..s + 1])
  {
    assert bars[..s + 1] == bars[..s] + [bars[s]];
    if s > 0 {
      assert bars[..s][s - 1] == bars[s - 1];
    }
    assert bars[s..s + 1] == [bars[s]];
    OpenStep(bars[..s], bars[s]);
  }

  /** Bar m joins the open row of bars[s..m-1], its own week. */
  lemma JoinAt(bars: seq<Bar>, s: nat, m: nat)
    requires s < m < |bars| && bars[m].stamp.week == bars[s].stamp.week
    requires |Resample(bars[..m])| > 0
    requires Resample(bars[..m])[|Resample(bars[..m])| - 1] == WeekRow(bars[s..m])
    ensures |Resample(bars[..m + 1])| > 0
    ensures Resample(bars[..m + 1])[|Resample(bars[..m + 1])| - 1] == WeekRow(bars[s..m + 1])
  {
    assert bars[..m + 1] == bars[..m] + [bars[m]];
    assert bars[s..m + 1] == bars[s..m] + [bars[m]];
    JoinStep(bars[..m], bars[s..m], bars[m]);
  }

  /** The last weekly row while the bars bars[s..m] of a week are in: bar s opened it,
      because it is the first bar or the bar before it lies in another week. */
  lemma {:induction false} OpenWeekRow(bars: seq<Bar>, s: nat, m: nat)
    requires s <= m < |bars|
    requires forall k :: s <= k <= m ==> bars[k].stamp.week == bars[s].stamp.week
    requires s == 0 || bars[s - 1].stamp.week != bars[s].stamp.week
    ensures |Resample(bars[..m + 1])| > 0
    ensures Resample(bars[..m + 1])[|Resample(bars[..m + 1])| - 1] == WeekRow(bars[s..m + 1])
    decreases m - s
  {
    if m == s {
      OpenAt(bars, s);
    } else {
      OpenWeekRow(bars, s, m - 1);
      JoinAt(bars, s, m);
    }
  }

  /** Once the bar after row i opens another week, or there is none, the row of bar i's
      week is final: it is the last row of the history cut after i. */
  lemma WeekRowFinal(bars: seq<Bar>, i: nat)
    requires i < |bars|
    requires i + 1 == |bars| || bars[i + 1].stamp.week != bars[i].stamp.week
    ensures WeekOf(bars, i) < |Resample(bars)|
    ensures Resample(bars)[WeekOf(bars, i)] ==
      Resample(bars[..i + 1])[|Resample(bars[..i + 1])| - 1]
  {
    if i + 1 < |bars| {
      ResampleCut(bars, i + 1);
    } else {
      assert bars[..i + 1] == bars;
    }
  }

  /** `resample('W').agg(...)`: the row of a complete week bars[s..i] holds the week's
      first open, its highest high, its lowest low, its last close and its total
      volume. */
  lemma WeekAggregates(bars: seq<Bar>, s: nat, i: nat)
    requires s <= i < |bars|
    requires forall k :: s <= k <= i ==> bars[k].stamp.week == bars[s].stamp.week
    requires s == 0 || bars[s - 1].stamp.week != bars[s].stamp.week
    requires i + 1 == |bars| || bars[i + 1].stamp.week != bars[i].stamp.week
    ensures WeekOf(bars, i) < |Resample(bars)|
    ensures Resample(bars)[WeekOf(bars, i)] ==
      WeekBar(bars[s].stamp.week, bars[s].open, MaxOf(Highs(bars[s..i + 1])),
        MinOf(Lows(bars[s..i + 1])), bars[i].close, TotalVolume(bars[s..i + 1]))
  {
    OpenWeekRow(bars, s, i);
    WeekRowFinal(bars, i);
    WeekRowFields(bars[s..i + 1]);
  }

  /** The weekly RSI of the rows up to j is decided by the rows up to j. */
  lemma WeeklyRsiSettled(p: seq<WeekBar>, r: seq<WeekBar>, period: nat, j: nat)
    requires period >= 1 && j < |p| <= |r|
    requires p[..j + 1] == r[..j + 1]
    ensures RsiSpec(WeeklyCloses(p), period)[j] == RsiSpec(WeeklyCloses(r), period)[j]
  {
    var c, d := WeeklyCloses(p), WeeklyCloses(r);
    forall k | 0 <= k <= j ensures c[k] == d[k] {
      assert p[k] == p[..j + 1][k] && r[k] == r[..j + 1][k];
    }
    assert c[..j + 1] == d[..j + 1];
    RsiCausal(c, d, period, j);
  }

  /** The filled cell of row i, read off the weekly column. */
  lemma FilledCell(bars: seq<Bar>, period: nat, i: nat)
    requires period >= 1 && i < |bars|
    ensures WeekOf(bars, i) < |WeeklyRsi(bars, period)|
    ensures FilledWeeklyRsi(bars, period)[i] ==
      if bars[i].stamp.atWeekEnd then WeeklyRsi(bars, period)[WeekOf(bars, i)]
      else if WeekOf(bars, i) >= 1 then WeeklyRsi(bars, period)[WeekOf(bars, i) - 1]
      else None
  {
    PrefixLength(bars, i + 1);
    var w, j := WeeklyRsi(bars, period), WeekOf(bars, i);
    assert FilledWeeklyRsi(bars, period) == Reindex(bars, w);
    assert Reindex(bars, w)[i] ==
      if bars[i].stamp.atWeekEnd then w[j] else if j >= 1 then w[j - 1] else None;
  }

  /** Cutting the history after row i leaves row i in the same week row, the last one. */
  lemma WeekOfCut(bars: seq<Bar>, i: nat)
    requires i < |bars|
    ensures WeekOf(bars[..i + 1], i) == WeekOf(bars, i) == |Resample(bars[..i + 1])| - 1
  {
    assert bars[..i + 1][..i + 1] == bars[..i + 1];
  }

  /** The week row of a bar that closes its week is final once that bar is in. */
  lemma OwnWeekFinal(bars: seq<Bar>, period: nat, i: nat)
    requires period >= 1 && i < |bars| && Chronological(bars) && bars[i].stamp.atWeekEnd
    ensures WeekOf(bars, i) < |WeeklyRsi(bars[..i + 1], period)| <= |WeeklyRsi(bars, period)|
    ensures WeeklyRsi(bars[..i + 1], period)[WeekOf(bars, i)] == WeeklyRsi(bars, period)[WeekOf(bars, i)]
  {
    var p, r := Resample(bars[..i + 1]), Resample(bars);
    var j := |p| - 1;
    PrefixLength(bars, i + 1);
    if i + 1 < |bars| {
      ResampleCut(bars, i + 1);
      assert p[..j + 1] == r[..j + 1];
    } else {
      assert bars[..i + 1] == bars;
    }
    WeeklyRsiSettled(p, r, period, j);
  }

  /** The week row before a bar's own week is final once that bar is in. */
  lemma PreviousWeekFinal(bars: seq<Bar>, period: nat, i: nat)
    requires period >= 1 && i < |bars| && WeekOf(bars, i) >= 1
    ensures WeekOf(bars, i) < |WeeklyRsi(bars[..i + 1], period)| <= |WeeklyRsi(bars, period)|
    ensures WeeklyRsi(bars[..i + 1], period)[WeekOf(bars, i) - 1] ==
      WeeklyRsi(bars, period)[WeekOf(bars, i) - 1]
  {
    var p, r := Resample(bars[..i + 1]), Resample(bars);
    var j := |p| - 1;
    ResamplePrefix(bars, i + 1);
    assert Settled(p, r);
    assert 1 <= j && p[..j] == r[..j];
    WeeklyRsiSettled(p, r, period, j - 1);
    assert WeeklyRsi(bars[..i + 1], period) == RsiSpec(WeeklyCloses(p), period);
  }

  /** No look-ahead: under date order, the `Weekly_RSI` a daily row receives is the one
      computed from the history up to and including that row. A row that closes its week
      reads its own week, which date order makes final; any other row reads the previous
      week, which is final from the moment the row's week has begun. */
  lemma FilledWeeklyRsiCausal(bars: seq<Bar>, period: nat, i: nat)
    requires period >= 1 && i < |bars| && Chronological(bars)
    ensures FilledWeeklyRsi(bars, period)[i] == FilledWeeklyRsi(bars[..i + 1], period)[i]
  {
    var cut := bars[..i + 1];
    assert cut[i] == bars[i];
    FilledCell(bars, period, i);
    FilledCell(cut, period, i);
    WeekOfCut(bars, i);
    if bars[i].stamp.atWeekEnd {
      OwnWeekFinal(bars, period, i);
    } else if WeekOf(bars, i) >= 1 {
      PreviousWeekFinal(bars, period, i);
    }
  }
}
