/** `generate_signals`: ten threshold rules read the latest row of the frame and the
    optional Fear & Greed reading; each rule that fires appends its label to the buy
    or the sell list and adds its weight to that side's points. Weights are kept in
    hundredths, so 0.05 is 5 and the points are exact integers. */
module Signals {
  import opened Wrappers
  import opened Numeric
  import opened Series
  import opened Bollinger
  import opened Indicators

  /** The cells of the latest row that the rules read. */
  datatype Row = Row(
    rsi14: Option<real>, weeklyRsi: Option<real>, rsi5: Option<real>,
    histogram: real,
    percentK: Option<Ext>,
    volumeChange: Option<Ext>,
    band: Option<Band>,
    sma5: Option<real>, sma10: Option<real>,
    close: real, vwap: Option<real>)

  /** The columns the rules read are present and as long as the bar series. */
  predicate Aligned(c: Columns, n: nat)
  {
    14 in c.rsi && 5 in c.rsi && 5 in c.sma && 10 in c.sma &&
    |c.rsi[14]| == n && |c.rsi[5]| == n && |c.weeklyRsi| == n && |c.histogram| == n &&
    |c.percentK| == n && |c.volumeChange| == n && |c.bands| == n &&
    |c.sma[5]| == n && |c.sma[10]| == n && |c.vwap| == n
  }

  /** `df.iloc[-1]`. */
  function Latest(bars: seq<Bar>, c: Columns): (r: Row)
    requires |bars| > 0 && Aligned(c, |bars|)
    ensures r.close == bars[|bars| - 1].close
  {
    var i := |bars| - 1;
    Row(c.rsi[14][i], c.weeklyRsi[i], c.rsi[5][i], c.histogram[i], c.percentK[i],
      c.volumeChange[i], c.bands[i], c.sma[5][i], c.sma[10][i], bars[i].close, c.vwap[i])
  }

  lemma AnnotateAligned(bars: seq<Bar>)
    ensures Aligned(Annotate(bars), |bars|)
  {
  }

  datatype Side = BuySide | SellSide

  /** The ten rule blocks, in the order they are evaluated. */
  datatype Rule =
    | FearGreedRule | DailyRsiRule | WeeklyRsiRule | ShortRsiRule | MacdRule
    | StochasticRule | VolumeChangeRule | BbWidthRule | SmaRule | VwapRule

  const AllRules: seq<Rule> := [FearGreedRule, DailyRsiRule, WeeklyRsiRule, ShortRsiRule,
    MacdRule, StochasticRule, VolumeChangeRule, BbWidthRule, SmaRule, VwapRule]

  /** The `weights` table, in hundredths; the three RSI rules share the `rsi` weight. */
  function Weight(r: Rule): nat
  {
    match r
    case FearGreedRule => 5
    case DailyRsiRule => 15
    case WeeklyRsiRule => 15
    case ShortRsiRule => 15
    case MacdRule => 15
    case StochasticRule => 10
    case VolumeChangeRule => 10
    case BbWidthRule => 10
    case SmaRule => 20
    case VwapRule => 10
  }

  /** An if/elif pair of tests: the first side when the first test holds, otherwise the
      second side when the second holds, otherwise no vote. */
  function Either(buy: bool, sell: bool): Option<Side>
  {
    if buy then Some(BuySide) else if sell then Some(SellSide) else None
  }

  /** The side a rule block votes for, if any. A missing Fear & Greed reading skips its
      block, and a NaN cell fails every comparison. */
  function Decide(r: Rule, row: Row, fearGreed: Option<real>): Option<Side>
  {
    match r
    case FearGreedRule =>
      if fearGreed.None? then None else Either(fearGreed.value <= 20.0, fearGreed.value >= 81.0)
    case DailyRsiRule => Either(AtMost(Lift(row.rsi14), 30.0), AtLeast(Lift(row.rsi14), 70.0))
    case WeeklyRsiRule => Either(AtMost(Lift(row.weeklyRsi), 30.0), AtLeast(Lift(row.weeklyRsi), 70.0))
    case ShortRsiRule => Either(AtMost(Lift(row.rsi5), 30.0), AtLeast(Lift(row.rsi5), 70.0))
    case MacdRule => Either(row.histogram > 0.0, row.histogram < 0.0)
    case StochasticRule => Either(AtMost(row.percentK, 20.0), AtLeast(row.percentK, 80.0))
    case VolumeChangeRule => Either(Above(row.volumeChange, 0.5), Below(row.volumeChange, -0.1))
    case BbWidthRule => Either(Narrow(row.band), Wide(row.band))
    case SmaRule => Either(Greater(row.sma5, row.sma10), Greater(row.sma10, row.sma5))
    case VwapRule => Either(Greater(Some(row.close), row.vwap), Greater(row.vwap, Some(row.close)))
  }

  /** The label a rule appends for a side. */
  function Label(r: Rule, side: Side): string
  {
    match (r, side)
    case (FearGreedRule, BuySide) => "Fear & Greed Index ≤ 20 (Extreme Fear)"
    case (FearGreedRule, SellSide) => "Fear & Greed Index ≥ 81 (Extreme Greed)"
    case (DailyRsiRule, BuySide) => "Daily RSI ≤ 30 (Oversold)"
    case (DailyRsiRule, SellSide) => "Daily RSI ≥ 70 (Overbought)"
    case (WeeklyRsiRule, BuySide) => "Weekly RSI ≤ 30 (Oversold)"
    case (WeeklyRsiRule, SellSide) => "Weekly RSI ≥ 70 (Overbought)"
    case (ShortRsiRule, BuySide) => "Short RSI ≤ 30 (Oversold)"
    case (ShortRsiRule, SellSide) => "Short RSI ≥ 70 (Overbought)"
    case (MacdRule, BuySide) => "MACD Histogram > 0 (Bullish)"
    case (MacdRule, SellSide) => "MACD Histogram < 0 (Bearish)"
    case (StochasticRule, BuySide) => "Stochastic %K ≤ 20 (Oversold)"
    case (StochasticRule, SellSide) => "Stochastic %K ≥ 80 (Overbought)"
    case (VolumeChangeRule, BuySide) => "Volume Change > 50% (Strong Buy)"
    case (VolumeChangeRule, SellSide) => "Volume Change < -10% (Sell)"
    case (BbWidthRule, BuySide) => "BB Width < 0.05 (Low Volatility)"
    case (BbWidthRule, SellSide) => "BB Width > 0.15 (High Volatility)"
    case (SmaRule, BuySide) => "SMA5 > SMA10 (Bullish)"
    case (SmaRule, SellSide) => "SMA5 < SMA10 (Bearish)"
    case (VwapRule, BuySide) => "Close > VWAP (Bullish)"
    case (VwapRule, SellSide) => "Close < VWAP (Bearish)"
  }

  /** The rules of rs that vote for a side, in rule order. */
  function Fired(rs: seq<Rule>, row: Row, fearGreed: Option<real>, side: Side): seq<Rule>
  {
    if |rs| == 0 then []
    else
      Fired(rs[..|rs| - 1], row, fearGreed, side) +
      (if Decide(rs[|rs| - 1], row, fearGreed) == Some(side) then [rs[|rs| - 1]] else [])
  }

  function Labels(rs: seq<Rule>, side: Side): (ls: seq<string>)
    ensures |ls| == |rs|
    ensures forall k :: 0 <= k < |rs| ==> ls[k] == Label(rs[k], side)
  {
    seq(|rs|, k requires 0 <= k < |rs| => Label(rs[k], side))
  }

  function TotalWeight(rs: seq<Rule>): nat
  {
    if |rs| == 0 then 0 else TotalWeight(rs[..|rs| - 1]) + Weight(rs[|rs| - 1])
  }

  /** The result of `generate_signals`: the two lists of labels and the two totals. */
  datatype Signals = Signals(buySignals: seq<string>, sellSignals: seq<string>, buyPoints: nat, sellPoints: nat)

  /** One rule block applied to the lists and totals so far: a vote appends the
      rule's label for its side and adds the rule's weight to that side's points. */
  function Vote(r: Rule, row: Row, fearGreed: Option<real>, s: Signals): Signals
  {
    Cast(Decide(r, row, fearGreed), r, s)
  }

  /** A decision d of rule r recorded on the lists and totals so far. */
  function Cast(d: Option<Side>, r: Rule, s: Signals): Signals
  {
    match d
    case Some(BuySide) => s.(buySignals := s.buySignals + [Label(r, BuySide)], buyPoints := s.buyPoints + Weight(r))
    case Some(SellSide) => s.(sellSignals := s.sellSignals + [Label(r, SellSide)], sellPoints := s.sellPoints + Weight(r))
    case None => s
  }

  /** The blocks of rs run in order, from empty lists and zero points. */
  function Tally(rs: seq<Rule>, row: Row, fearGreed: Option<real>): Signals
  {
    if |rs| == 0 then Signals([], [], 0, 0)
    else Vote(rs[|rs| - 1], row, fearGreed, Tally(rs[..|rs| - 1], row, fearGreed))
  }

  /** What `generate_signals` returns for a row and a Fear & Greed reading. */
  function SignalsOf(row: Row, fearGreed: Option<real>): Signals
  {
    Tally(AllRules, row, fearGreed)
  }

  lemma TallyStep(row: Row, fearGreed: Option<real>, k: nat)
    requires k < |AllRules|
    ensures Tally(AllRules[..k + 1], row, fearGreed) == Vote(AllRules[k], row, fearGreed, Tally(AllRules[..k], row, fearGreed))
  {
    assert AllRules[..k + 1][..k] == AllRules[..k];
  }

  /** The ten blocks, written out in the order they run. */
  lemma TallyAll(row: Row, fearGreed: Option<real>)
    ensures SignalsOf(row, fearGreed) == Vote(VwapRule, row, fearGreed, Vote(SmaRule, row, fearGreed, Vote(BbWidthRule, row, fearGreed, Vote(VolumeChangeRule, row, fearGreed, Vote(StochasticRule, row, fearGreed, Vote(MacdRule, row, fearGreed, Vote(ShortRsiRule, row, fearGreed, Vote(WeeklyRsiRule, row, fearGreed, Vote(DailyRsiRule, row, fearGreed, Vote(FearGreedRule, row, fearGreed, Signals([], [], 0, 0)))))))))))
  {
    TallyStep(row, fearGreed, 0);
    TallyStep(row, fearGreed, 1);
    TallyStep(row, fearGreed, 2);
    TallyStep(row, fearGreed, 3);
    TallyStep(row, fearGreed, 4);
    TallyStep(row, fearGreed, 5);
    TallyStep(row, fearGreed, 6);
    TallyStep(row, fearGreed, 7);
    TallyStep(row, fearGreed, 8);
    TallyStep(row, fearGreed, 9);
    assert AllRules[..10] == AllRules;
  }

  /* The ten blocks of `generate_signals`, each with its own tests, labels and weight:
     each applies its rule's vote to the lists and totals it is given. */

  /** The Fear & Greed block, skipped when there is no reading. */
  method FearGreedBlock(row: Row, fearGreed: Option<real>, s: Signals) returns (t: Signals)
    ensures t == Vote(FearGreedRule, row, fearGreed, s)
  {
    t := s;
    if fearGreed.Some? {
      if fearGreed.value <= 20.0 {
        t := t.(buySignals := t.buySignals + ["Fear & Greed Index ≤ 20 (Extreme Fear)"], buyPoints := t.buyPoints + 5);
      } else if fearGreed.value >= 81.0 {
        t := t.(sellSignals := t.sellSignals + ["Fear & Greed Index ≥ 81 (Extreme Greed)"], sellPoints := t.sellPoints + 5);
      }
    }
  }

  /** The daily RSI block. */
  method DailyRsiBlock(row: Row, fearGreed: Option<real>, s: Signals) returns (t: Signals)
    ensures t == Vote(DailyRsiRule, row, fearGreed, s)
  {
    t := s;
    if AtMost(Lift(row.rsi14), 30.0) {
      t := t.(buySignals := t.buySignals + ["Daily RSI ≤ 30 (Oversold)"], buyPoints := t.buyPoints + 15);
    } else if AtLeast(Lift(row.rsi14), 70.0) {
      t := t.(sellSignals := t.sellSignals + ["Daily RSI ≥ 70 (Overbought)"], sellPoints := t.sellPoints + 15);
    }
  }

  /** The weekly RSI block. */
  method WeeklyRsiBlock(row: Row, fearGreed: Option<real>, s: Signals) returns (t: Signals)
    ensures t == Vote(WeeklyRsiRule, row, fearGreed, s)
  {
    t := s;
    if AtMost(Lift(row.weeklyRsi), 30.0) {
      t := t.(buySignals := t.buySignals + ["Weekly RSI ≤ 30 (Oversold)"], buyPoints := t.buyPoints + 15);
    } else if AtLeast(Lift(row.weeklyRsi), 70.0) {
      t := t.(sellSignals := t.sellSignals + ["Weekly RSI ≥ 70 (Overbought)"], sellPoints := t.sellPoints + 15);
    }
  }

  /** The short RSI block. */
  method ShortRsiBlock(row: Row, fearGreed: Option<real>, s: Signals) returns (t: Signals)
    ensures t == Vote(ShortRsiRule, row, fearGreed, s)
  {
    t := s;
    if AtMost(Lift(row.rsi5), 30.0) {
      t := t.(buySignals := t.buySignals + ["Short RSI ≤ 30 (Oversold)"], buyPoints := t.buyPoints + 15);
    } else if AtLeast(Lift(row.rsi5), 70.0) {
      t := t.(sellSignals := t.sellSignals + ["Short RSI ≥ 70 (Overbought)"], sellPoints := t.sellPoints + 15);
    }
  }

  /** The MACD histogram block. */
  method MacdBlock(row: Row, fearGreed: Option<real>, s: Signals) returns (t: Signals)
    ensures t == Vote(MacdRule, row, fearGreed, s)
  {
    t := s;
    if row.histogram > 0.0 {
      t := t.(buySignals := t.buySignals + ["MACD Histogram > 0 (Bullish)"], buyPoints := t.buyPoints + 15);
    } else if row.histogram < 0.0 {
      t := t.(sellSignals := t.sellSignals + ["MACD Histogram < 0 (Bearish)"], sellPoints := t.sellPoints + 15);
    }
  }

  /** The stochastic block. */
  method StochasticBlock(row: Row, fearGreed: Option<real>, s: Signals) returns (t: Signals)
    ensures t == Vote(StochasticRule, row, fearGreed, s)
  {
    t := s;
    if AtMost(row.percentK, 20.0) {
      t := t.(buySignals := t.buySignals + ["Stochastic %K ≤ 20 (Oversold)"], buyPoints := t.buyPoints + 10);
    } else if AtLeast(row.percentK, 80.0) {
      t := t.(sellSignals := t.sellSignals + ["Stochastic %K ≥ 80 (Overbought)"], sellPoints := t.sellPoints + 10);
    }
  }

  /** The volume change block. */
  method VolumeChangeBlock(row: Row, fearGreed: Option<real>, s: Signals) returns (t: Signals)
    ensures t == Vote(VolumeChangeRule, row, fearGreed, s)
  {
    t := s;
    if Above(row.volumeChange, 0.5) {
      t := t.(buySignals := t.buySignals + ["Volume Change > 50% (Strong Buy)"], buyPoints := t.buyPoints + 10);
    } else if Below(row.volumeChange, -0.1) {
      t := t.(sellSignals := t.sellSignals + ["Volume Change < -10% (Sell)"], sellPoints := t.sellPoints + 10);
    }
  }

  /** The Bollinger width block. */
  method BbWidthBlock(row: Row, fearGreed: Option<real>, s: Signals) returns (t: Signals)
    ensures t == Vote(BbWidthRule, row, fearGreed, s)
  {
    t := s;
    if Narrow(row.band) {
      t := t.(buySignals := t.buySignals + ["BB Width < 0.05 (Low Volatility)"], buyPoints := t.buyPoints + 10);
    } else if Wide(row.band) {
      t := t.(sellSignals := t.sellSignals + ["BB Width > 0.15 (High Volatility)"], sellPoints := t.sellPoints + 10);
    }
  }

  /** The moving average block. */
  method SmaBlock(row: Row, fearGreed: Option<real>, s: Signals) returns (t: Signals)
    ensures t == Vote(SmaRule, row, fearGreed, s)
  {
    t := s;
    if Greater(row.sma5, row.sma10) {
      t := t.(buySignals := t.buySignals + ["SMA5 > SMA10 (Bullish)"], buyPoints := t.buyPoints + 20);
    } else if Greater(row.sma10, row.sma5) {
      t := t.(sellSignals := t.sellSignals + ["SMA5 < SMA10 (Bearish)"], sellPoints := t.sellPoints + 20);
    }
  }

  /** The VWAP block. */
  method VwapBlock(row: Row, fearGreed: Option<real>, s: Signals) returns (t: Signals)
    ensures t == Vote(VwapRule, row, fearGreed, s)
  {
    t := s;
    if Greater(Some(row.close), row.vwap) {
      t := t.(buySignals := t.buySignals + ["Close > VWAP (Bullish)"], buyPoints := t.buyPoints + 10);
    } else if Greater(row.vwap, Some(row.close)) {
      t := t.(sellSignals := t.sellSignals + ["Close < VWAP (Bearish)"], sellPoints := t.sellPoints + 10);
    }
  }

  /** `generate_signals(df, fear_greed, vix)` on the latest row: the blocks run in
      order, each appending to a list and adding to a total. The `vix` reading is
      accepted and never read. */
  method GenerateSignals(latest: Row, fearGreed: Option<real>, vix: Option<real>)
    returns (buySignals: seq<string>, sellSignals: seq<string>, buyPoints: nat, sellPoints: nat)
    ensures Signals(buySignals, sellSignals, buyPoints, sellPoints) == SignalsOf(latest, fearGreed)
  {
    var s := Signals([], [], 0, 0);
    s := FearGreedBlock(latest, fearGreed, s);
    s := DailyRsiBlock(latest, fearGreed, s);
    s := WeeklyRsiBlock(latest, fearGreed, s);
    s := ShortRsiBlock(latest, fearGreed, s);
    s := MacdBlock(latest, fearGreed, s);
    s := StochasticBlock(latest, fearGreed, s);
    s := VolumeChangeBlock(latest, fearGreed, s);
    s := BbWidthBlock(latest, fearGreed, s);
    s := SmaBlock(latest, fearGreed, s);
    s := VwapBlock(latest, fearGreed, s);
    TallyAll(latest, fearGreed);
    buySignals, sellSignals, buyPoints, sellPoints := s.buySignals, s.sellSignals, s.buyPoints, s.sellPoints;
  }

  /* Properties of the scorer. */

  lemma Appended(rs: seq<Rule>, r: Rule, side: Side)
    ensures TotalWeight(rs + [r]) == TotalWeight(rs) + Weight(r)
    ensures Labels(rs + [r], side) == Labels(rs, side) + [Label(r, side)]
  {
    assert (rs + [r])[..|rs|] == rs;
  }

  /** Labels match points: each list holds, in rule order, the labels of exactly the
      rules that voted for its side, and each total is the sum of those rules'
      weights. */
  lemma {:induction false} TallyMeans(rs: seq<Rule>, row: Row, fearGreed: Option<real>)
    ensures Tally(rs, row, fearGreed).buySignals == Labels(Fired(rs, row, fearGreed, BuySide), BuySide)
    ensures Tally(rs, row, fearGreed).sellSignals == Labels(Fired(rs, row, fearGreed, SellSide), SellSide)
    ensures Tally(rs, row, fearGreed).buyPoints == TotalWeight(Fired(rs, row, fearGreed, BuySide))
    ensures Tally(rs, row, fearGreed).sellPoints == TotalWeight(Fired(rs, row, fearGreed, SellSide))
  {
    if |rs| > 0 {
      var init, r := rs[..|rs| - 1], rs[|rs| - 1];
      TallyMeans(init, row, fearGreed);
      CastMeans(Decide(r, row, fearGreed), r, Tally(init, row, fearGreed),
        Fired(init, row, fearGreed, BuySide), Fired(init, row, fearGreed, SellSide));
    }
  }

  /** The inductive step of `TallyMeans`: recording a decision extends the fired rules of
      its side by the rule, and keeps labels and points in step with them. */
  lemma CastMeans(d: Option<Side>, r: Rule, s: Signals, buy: seq<Rule>, sell: seq<Rule>)
    requires s.buySignals == Labels(buy, BuySide) && s.buyPoints == TotalWeight(buy)
    requires s.sellSignals == Labels(sell, SellSide) && s.sellPoints == TotalWeight(sell)
    ensures var buy', sell' := buy + (if d == Some(BuySide) then [r] else []), sell + (if d == Some(SellSide) then [r] else []);
      Cast(d, r, s).buySignals == Labels(buy', BuySide) && Cast(d, r, s).buyPoints == TotalWeight(buy') &&
      Cast(d, r, s).sellSignals == Labels(sell', SellSide) && Cast(d, r, s).sellPoints == TotalWeight(sell')
  {
    var c := Cast(d, r, s);
    match d
    case Some(BuySide) =>
      assert c == s.(buySignals := s.buySignals + [Label(r, BuySide)], buyPoints := s.buyPoints + Weight(r));
      Appended(buy, r, BuySide);
      assert sell + [] == sell;
    case Some(SellSide) =>
      assert c == s.(sellSignals := s.sellSignals + [Label(r, SellSide)], sellPoints := s.sellPoints + Weight(r));
      Appended(sell, r, SellSide);
      assert buy + [] == buy;
    case None =>
      assert c == s;
      assert buy + [] == buy && sell + [] == sell;
  }

  /** A rule is in a side's list exactly when it is one of the rules run and decides
      for that side. */
  lemma {:induction false} FiredMeans(rs: seq<Rule>, row: Row, fearGreed: Option<real>, side: Side, r: Rule)
    ensures r in Fired(rs, row, fearGreed, side) <==> r in rs && Decide(r, row, fearGreed) == Some(side)
  {
    if |rs| > 0 {
      var init := rs[..|rs| - 1];
      FiredMeans(init, row, fearGreed, side, r);
      assert rs == init + [rs[|rs| - 1]];
    }
  }

  /** A rule run that decides for a side has its label on that side's list. */
  lemma Listed(rs: seq<Rule>, row: Row, fearGreed: Option<real>, r: Rule, side: Side)
    requires r in rs && Decide(r, row, fearGreed) == Some(side)
    ensures side == BuySide ==> Label(r, side) in Tally(rs, row, fearGreed).buySignals
    ensures side == SellSide ==> Label(r, side) in Tally(rs, row, fearGreed).sellSignals
  {
    TallyMeans(rs, row, fearGreed);
    var fired := Fired(rs, row, fearGreed, side);
    FiredMeans(rs, row, fearGreed, side, r);
    var a :| 0 <= a < |fired| && fired[a] == r;
    assert Labels(fired, side)[a] == Label(r, side);
  }

  /** Rule exclusivity: an if/elif block votes for at most one side, so no rule is in
      both lists. */
  lemma FiredExclusive(rs: seq<Rule>, row: Row, fearGreed: Option<real>, r: Rule)
    ensures !(r in Fired(rs, row, fearGreed, BuySide) && r in Fired(rs, row, fearGreed, SellSide))
  {
    FiredMeans(rs, row, fearGreed, BuySide, r);
    FiredMeans(rs, row, fearGreed, SellSide, r);
  }

  /** Between them the two sides hold at most the rules run, and at most their total
      weight. */
  lemma {:induction false} FiredShare(rs: seq<Rule>, row: Row, fearGreed: Option<real>)
    ensures |Fired(rs, row, fearGreed, BuySide)| + |Fired(rs, row, fearGreed, SellSide)| <= |rs|
    ensures TotalWeight(Fired(rs, row, fearGreed, BuySide)) + TotalWeight(Fired(rs, row, fearGreed, SellSide))
      <= TotalWeight(rs)
  {
    if |rs| > 0 {
      var init, r := rs[..|rs| - 1], rs[|rs| - 1];
      FiredShare(init, row, fearGreed);
      var buy, sell := Fired(init, row, fearGreed, BuySide), Fired(init, row, fearGreed, SellSide);
      Appended(buy, r, BuySide);
      Appended(sell, r, SellSide);
      assert buy + [] == buy && sell + [] == sell;
    }
  }

  /** The weights of the ten blocks add up to 1.25, the three RSI blocks each counting
      the `rsi` weight. */
  lemma AllWeights()
    ensures TotalWeight(AllRules) == 125
  {
    var k := 0;
    while k < 10
      invariant 0 <= k <= 10
      invariant TotalWeight(AllRules[..k]) == [0, 5, 20, 35, 50, 65, 75, 85, 95, 115, 125][k]
    {
      assert AllRules[..k + 1][..k] == AllRules[..k];
      k := k + 1;
    }
    assert AllRules[..10] == AllRules;
  }

  /** Score bounds: the two totals add up to at most 1.25 and the two lists to at most
      ten labels. */
  lemma SignalBounds(row: Row, fearGreed: Option<real>)
    ensures SignalsOf(row, fearGreed).buyPoints + SignalsOf(row, fearGreed).sellPoints <= 125
    ensures |SignalsOf(row, fearGreed).buySignals| + |SignalsOf(row, fearGreed).sellSignals| <= 10
  {
    TallyMeans(AllRules, row, fearGreed);
    FiredShare(AllRules, row, fearGreed);
    AllWeights();
  }

  /** Whether the cells a rule reads are all defined. The MACD histogram is defined on
      every row. */
  predicate Defined(r: Rule, row: Row, fearGreed: Option<real>)
  {
    match r
    case FearGreedRule => fearGreed.Some?
    case DailyRsiRule => row.rsi14.Some?
    case WeeklyRsiRule => row.weeklyRsi.Some?
    case ShortRsiRule => row.rsi5.Some?
    case MacdRule => true
    case StochasticRule => row.percentK.Some?
    case VolumeChangeRule => row.volumeChange.Some?
    case BbWidthRule => row.band.Some?
    case SmaRule => row.sma5.Some? && row.sma10.Some?
    case VwapRule => row.vwap.Some?
  }

  /** A missing Fear & Greed reading or a NaN cell fails both tests of its block, so
      the rule appears in neither list. */
  lemma UndefinedAbstains(row: Row, fearGreed: Option<real>, r: Rule)
    requires !Defined(r, row, fearGreed)
    ensures Decide(r, row, fearGreed) == None
    ensures r !in Fired(AllRules, row, fearGreed, BuySide) && r !in Fired(AllRules, row, fearGreed, SellSide)
  {
    FiredMeans(AllRules, row, fearGreed, BuySide, r);
    FiredMeans(AllRules, row, fearGreed, SellSide, r);
  }

  /** A row on which every block votes buy: the bound of 1.25 is reached. */
  lemma AllBuy()
    ensures SignalsOf(Row(Some(25.0), Some(25.0), Some(25.0), 1.0, Some(Finite(10.0)), Some(Finite(1.0)),
      Some(Band(100.0, 0.0)), Some(2.0), Some(1.0), 2.0, Some(1.0)), Some(10.0)) == 
      Signals(Labels(AllRules, BuySide), [], 125, 0)
  {
    var row := Row(Some(25.0), Some(25.0), Some(25.0), 1.0, Some(Finite(10.0)), Some(Finite(1.0)),
      Some(Band(100.0, 0.0)), Some(2.0), Some(1.0), 2.0, Some(1.0));
    FlatBand(100.0);
    forall r | r in AllRules
      ensures Decide(r, row, Some(10.0)) == Some(BuySide)
    {
    }
    TallyMeans(AllRules, row, Some(10.0));
    FiredAll(AllRules, row, Some(10.0));
    AllWeights();
  }

  /** When every rule decides for the buy side the buy list holds every rule. */
  lemma {:induction false} FiredAll(rs: seq<Rule>, row: Row, fearGreed: Option<real>)
    requires forall r :: r in rs ==> Decide(r, row, fearGreed) == Some(BuySide)
    ensures Fired(rs, row, fearGreed, BuySide) == rs && Fired(rs, row, fearGreed, SellSide) == []
  {
    if |rs| > 0 {
      var init, last := rs[..|rs| - 1], rs[|rs| - 1];
      assert rs == init + [last];
      assert last in rs && forall r :: r in init ==> r in rs;
      FiredAll(init, row, fearGreed);
      assert Decide(last, row, fearGreed) == Some(BuySide);
    }
  }
}
