/** The volume-based indicators: `calculate_obv`, `calculate_vwap` and
    `calculate_volume_change`. */
module Volume {
  import opened Wrappers
  import opened Numeric
  import opened Series

  /** Sum of an integer sequence, folded from the left. */
  function SumInt(xs: seq<int>): int
  {
    if |xs| == 0 then 0 else SumInt(xs[..|xs| - 1]) + xs[|xs| - 1]
  }

  /** A bar's on-balance-volume contribution, `Volume * (diff > 0) - Volume * (diff < 0)`
      with `diff = Close.diff()`; the NaN first difference satisfies neither test. */
  function Flow(bars: seq<Bar>, i: nat): int
    requires i < |bars|
  {
    if i == 0 then 0
    else
      (if bars[i].close - bars[i - 1].close > 0.0 then bars[i].volume else 0) -
      (if bars[i].close - bars[i - 1].close < 0.0 then bars[i].volume else 0)
  }

  /** The flow column: 0 on the first row, then the day's volume with the sign of the
      close change, and 0 when the close is unchanged. */
  function Flows(bars: seq<Bar>): (f: seq<int>)
    ensures |f| == |bars|
    ensures forall i :: 0 <= i < |bars| ==> f[i] == Flow(bars, i)
    ensures |bars| > 0 ==> f[0] == 0
    ensures forall i :: 0 < i < |bars| ==>
      f[i] == (if bars[i].close > bars[i - 1].close then bars[i].volume as int
               else if bars[i].close < bars[i - 1].close then -(bars[i].volume as int)
               else 0)
  {
    seq(|bars|, i requires 0 <= i < |bars| => Flow(bars, i))
  }

  /** `OBV`: the running total (`cumsum`) of the flows, never reset. */
  function Obv(bars: seq<Bar>): (o: seq<int>)
    ensures |o| == |bars|
  {
    var f := Flows(bars);
    seq(|bars|, i requires 0 <= i < |bars| => SumInt(f[..i + 1]))
  }

  /** OBV starts at 0 and then moves by the day's volume, up when the close rose, down
      when it fell, not at all when it was unchanged. */
  lemma ObvSteps(bars: seq<Bar>, i: nat)
    requires i < |bars|
    ensures i == 0 ==> Obv(bars)[0] == 0
    ensures i > 0 ==>
      (Obv(bars)[i] - Obv(bars)[i - 1] ==
         if bars[i].close > bars[i - 1].close then bars[i].volume as int
         else if bars[i].close < bars[i - 1].close then -(bars[i].volume as int)
         else 0)
  {
    var f := Flows(bars);
    if i == 0 {
      assert f[..1] == [f[0]];
      assert SumInt([f[0]]) == SumInt([]) + f[0];
    } else {
      assert f[..i + 1][..i] == f[..i];
      assert SumInt(f[..i + 1]) == SumInt(f[..i]) + f[i];
      assert Obv(bars)[i] == SumInt(f[..i + 1]) && Obv(bars)[i - 1] == SumInt(f[..i]);
    }
  }

  /** OBV moves by at most the volume traded so far. */
  lemma {:induction false} ObvBounded(bars: seq<Bar>, i: nat)
    requires i < |bars|
    ensures -SumInt(VolumeColumn(bars)[..i + 1]) <= Obv(bars)[i] <= SumInt(VolumeColumn(bars)[..i + 1])
  {
    var v := VolumeColumn(bars);
    if i == 0 {
      ObvSteps(bars, 0);
      assert v[..1] == [v[0]];
      assert SumInt([v[0]]) == SumInt([]) + v[0];
    } else {
      ObvBounded(bars, i - 1);
      ObvSteps(bars, i);
      assert v[..i + 1][..i] == v[..i];
    }
  }

  function VolumeColumn(bars: seq<Bar>): (v: seq<int>)
    ensures |v| == |bars|
    ensures forall i :: 0 <= i < |bars| ==> v[i] == bars[i].volume
  {
    seq(|bars|, i requires 0 <= i < |bars| => bars[i].volume)
  }

  /** `(High + Low + Close) / 3`. */
  function TypicalPrice(b: Bar): real
  {
    (b.high + b.low + b.close) / 3.0
  }

  /** Typical price times volume, per bar. */
  function Turnover(bs: seq<Bar>): (t: seq<real>)
    ensures |t| == |bs|
    ensures forall i :: 0 <= i < |bs| ==> t[i] == TypicalPrice(bs[i]) * (bs[i].volume as real)
  {
    seq(|bs|, i requires 0 <= i < |bs| => TypicalPrice(bs[i]) * (bs[i].volume as real))
  }

  function Volumes(bs: seq<Bar>): (v: seq<real>)
    ensures |v| == |bs|
    ensures forall i :: 0 <= i < |bs| ==> v[i] == bs[i].volume as real
  {
    seq(|bs|, i requires 0 <= i < |bs| => bs[i].volume as real)
  }

  /** The VWAP of the bars given: cumulative turnover over cumulative volume, NaN when
      no volume has traded yet (the turnover is then 0 as well, so this is 0/0). */
  function VwapOf(bs: seq<Bar>): Option<real>
  {
    var den := Sum(Volumes(bs));
    if den == 0.0 then None else Some(Sum(Turnover(bs)) / den)
  }

  /** `VWAP`: a running, not rolling, average from the start of the series. */
  function Vwap(bars: seq<Bar>): (w: seq<Option<real>>)
    ensures |w| == |bars|
    ensures forall i :: 0 <= i < |bars| ==> w[i] == VwapOf(bars[..i + 1])
  {
    seq(|bars|, i requires 0 <= i < |bars| => VwapOf(bars[..i + 1]))
  }

  lemma TurnoverStep(bs: seq<Bar>)
    requires |bs| > 0
    ensures Turnover(bs[..|bs| - 1]) == Turnover(bs)[..|bs| - 1]
    ensures Volumes(bs[..|bs| - 1]) == Volumes(bs)[..|bs| - 1]
  {
    var n := |bs| - 1;
    forall k | 0 <= k < n
      ensures Turnover(bs[..n])[k] == Turnover(bs)[k] && Volumes(bs[..n])[k] == Volumes(bs)[k]
    {
      assert bs[..n][k] == bs[k];
    }
  }

  /** With non-negative weights, bounds on the typical prices bound the turnover. */
  lemma TurnoverBounds(bs: seq<Bar>, lo: real, hi: real)
    requires forall k :: 0 <= k < |bs| ==> lo <= TypicalPrice(bs[k]) <= hi
    ensures lo * Sum(Volumes(bs)) <= Sum(Turnover(bs))
    ensures Sum(Turnover(bs)) <= hi * Sum(Volumes(bs))
  {
    TurnoverLower(bs, lo);
    TurnoverUpper(bs, hi);
  }

  lemma TurnoverLower(bs: seq<Bar>, lo: real)
    requires forall k :: 0 <= k < |bs| ==> lo <= TypicalPrice(bs[k])
    ensures lo * Sum(Volumes(bs)) <= Sum(Turnover(bs))
  {
    LowerTerms(bs, lo);
    WeightedLower(Turnover(bs), Volumes(bs), lo);
  }

  lemma TurnoverUpper(bs: seq<Bar>, hi: real)
    requires forall k :: 0 <= k < |bs| ==> TypicalPrice(bs[k]) <= hi
    ensures Sum(Turnover(bs)) <= hi * Sum(Volumes(bs))
  {
    UpperTerms(bs, hi);
    WeightedUpper(Turnover(bs), Volumes(bs), hi);
  }

  /** Bar by bar, the turnover is at least lo times the volume. */
  lemma LowerTerms(bs: seq<Bar>, lo: real)
    requires forall k :: 0 <= k < |bs| ==> lo <= TypicalPrice(bs[k])
    ensures forall k :: 0 <= k < |Turnover(bs)| ==> lo * Volumes(bs)[k] <= Turnover(bs)[k]
  {
    forall k | 0 <= k < |bs|
      ensures lo * Volumes(bs)[k] <= Turnover(bs)[k]
    {
      var x, v := TypicalPrice(bs[k]), bs[k].volume as real;
      assert Turnover(bs)[k] == x * v && Volumes(bs)[k] == v;
      WeightedStep(x, v, lo, x);
    }
  }

  /** Bar by bar, the turnover is at most hi times the volume. */
  lemma UpperTerms(bs: seq<Bar>, hi: real)
    requires forall k :: 0 <= k < |bs| ==> TypicalPrice(bs[k]) <= hi
    ensures forall k :: 0 <= k < |Turnover(bs)| ==> Turnover(bs)[k] <= hi * Volumes(bs)[k]
  {
    forall k | 0 <= k < |bs|
      ensures Turnover(bs)[k] <= hi * Volumes(bs)[k]
    {
      var x, v := TypicalPrice(bs[k]), bs[k].volume as real;
      assert Turnover(bs)[k] == x * v && Volumes(bs)[k] == v;
      WeightedStep(x, v, x, hi);
    }
  }

  /** A price within [lo, hi] traded at a non-negative volume v turns over between
      lo * v and hi * v. */
  lemma WeightedStep(x: real, v: real, lo: real, hi: real)
    requires v >= 0.0 && lo <= x <= hi
    ensures lo * v <= x * v <= hi * v
  {
    assert (x - lo) * v >= 0.0 && (hi - x) * v >= 0.0;
  }

  /** The cumulative volume is zero exactly when no bar has traded, and then the
      cumulative turnover is zero too. */
  lemma {:induction false} NoVolume(bs: seq<Bar>)
    ensures Sum(Volumes(bs)) >= 0.0
    ensures Sum(Volumes(bs)) == 0.0 <==> forall k :: 0 <= k < |bs| ==> bs[k].volume == 0
    ensures Sum(Volumes(bs)) == 0.0 ==> Sum(Turnover(bs)) == 0.0
  {
    if |bs| > 0 {
      var n := |bs| - 1;
      NoVolume(bs[..n]);
      TurnoverStep(bs);
      if Sum(Volumes(bs)) == 0.0 {
        forall k | 0 <= k < |bs| ensures bs[k].volume == 0 {
          if k < n { assert bs[k] == bs[..n][k]; }
        }
      }
      if forall k :: 0 <= k < |bs| ==> bs[k].volume == 0 {
        assert forall k :: 0 <= k < n ==> bs[..n][k].volume == 0;
      }
    }
  }

  /** VWAP is defined exactly once some volume has traded, and then it lies between any
      bounds of the typical prices seen so far; with non-zero volume on a column of
      constant typical price P it is P. */
  lemma VwapCell(bars: seq<Bar>, i: nat, lo: real, hi: real)
    requires i < |bars|
    requires forall k :: 0 <= k <= i ==> lo <= TypicalPrice(bars[k]) <= hi
    ensures Vwap(bars)[i].Some? <==> exists k :: 0 <= k <= i && bars[k].volume > 0
    ensures Vwap(bars)[i].Some? ==> lo <= Vwap(bars)[i].value <= hi
  {
    var bs := bars[..i + 1];
    NoVolume(bs);
    TurnoverBounds(bs, lo, hi);
    if Sum(Volumes(bs)) != 0.0 {
      var den := Sum(Volumes(bs));
      assert den * lo <= Sum(Turnover(bs)) <= den * hi;
      QuotientBounds(Sum(Turnover(bs)), den, lo, hi);
    }
    assert forall k :: 0 <= k <= i ==> bs[k] == bars[k];
  }

  /** `Volume.pct_change()` at one row: `cur / prev - 1`; a zero previous volume gives
      inf (minus 1 still inf) when volume resumes and 0/0 = NaN when it stays at zero. */
  function PctChange(prev: nat, cur: nat): Option<Ext>
  {
    match Divide(cur as real, prev as real)
    case Some(Finite(q)) => Some(Finite(q - 1.0))
    case other => other
  }

  /** `Volume_Change`, NaN on the first row. */
  function VolumeChange(bars: seq<Bar>): (r: seq<Option<Ext>>)
    ensures |r| == |bars|
  {
    seq(|bars|, i requires 0 <= i < |bars| =>
      if i == 0 then None else PctChange(bars[i - 1].volume, bars[i].volume))
  }

  /** The volume change is the relative change of volume, at least -1 (volume cannot
      fall below zero); it is +inf exactly when trading resumes after a zero-volume
      bar, NaN on the first row and between two zero-volume bars, and never -inf. */
  lemma VolumeChangeCell(bars: seq<Bar>, i: nat)
    requires i < |bars|
    ensures i == 0 ==> VolumeChange(bars)[i] == None
    ensures VolumeChange(bars)[i] != Some(NegInf)
    ensures i > 0 ==>
      var prev, cur := bars[i - 1].volume, bars[i].volume;
      (prev > 0 ==>
         (VolumeChange(bars)[i].Some? && VolumeChange(bars)[i].value.Finite? &&
          VolumeChange(bars)[i].value.value >= -1.0 &&
          VolumeChange(bars)[i].value.value * (prev as real) == (cur - prev) as real)) &&
      (VolumeChange(bars)[i] == Some(PosInf) <==> prev == 0 && cur > 0) &&
      (VolumeChange(bars)[i].None? <==> prev == 0 && cur == 0)
  {
    if i > 0 {
      var prev, cur := bars[i - 1].volume as real, bars[i].volume as real;
      if prev > 0.0 {
        var q := cur / prev;
        assert q * prev == cur;
        QuotientBounds(cur, prev, 0.0, q);
        assert (q - 1.0) * prev == q * prev - prev;
      }
    }
  }
}
