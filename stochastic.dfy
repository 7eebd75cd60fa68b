/** The stochastic oscillator %K: where the close sits within the range of the last
    `period` bars, from the lowest low to the highest high, in percent. */
module Stochastic {
  import opened Wrappers
  import opened Numeric
  import opened Series
  import opened Rolling

  /** `* 100` on a floating-point cell: the infinities and NaN pass through. */
  function Percent(x: Option<Ext>): (r: Option<Ext>)
    ensures r.None? <==> x.None?
    ensures x.Some? && x.value.Finite? ==> r == Some(Finite(100.0 * x.value.value))
    ensures x.Some? && !x.value.Finite? ==> r == x
  {
    match x
    case Some(Finite(v)) => Some(Finite(100.0 * v))
    case other => other
  }

  /** One cell of `Percent_K` from the close and the window's lowest low and highest
      high. */
  function KCell(close: real, ll: real, hh: real): Option<Ext>
  {
    Percent(Divide(close - ll, hh - ll))
  }

  /** `Percent_K`: (close - lowest low) / (highest high - lowest low) * 100, NaN during
      the warm-up of the rolling extremes; a flat window gives 0/0 = NaN, and a close
      outside the window's range (possible only for bars that break the price relation)
      over a zero range an infinity. */
  function PercentK(bars: seq<Bar>, period: nat): (r: seq<Option<Ext>>)
    requires period >= 1
    ensures |r| == |bars|
  {
    var ll := RollingMin(Lows(bars), period);
    var hh := RollingMax(Highs(bars), period);
    seq(|bars|, i requires 0 <= i < |bars| =>
      if i + 1 < period then None
      else KCell(bars[i].close, ll[i].value, hh[i].value))
  }

  /** A close within [ll, hh] gives NaN exactly on a zero range, and otherwise a finite
      percentage in [0, 100] that places the close within the range. */
  lemma KCellRange(close: real, ll: real, hh: real)
    requires ll <= close <= hh
    ensures KCell(close, ll, hh).None? <==> hh == ll
    ensures hh != ll ==>
      KCell(close, ll, hh).Some? && KCell(close, ll, hh).value.Finite? &&
      0.0 <= KCell(close, ll, hh).value.value <= 100.0 &&
      KCell(close, ll, hh).value.value * (hh - ll) == 100.0 * (close - ll)
  {
    var x, d := close - ll, hh - ll;
    if d != 0.0 {
      QuotientBounds(x, d, 0.0, 1.0);
      var q := x / d;
      assert q * d == x;
      assert (100.0 * q) * d == 100.0 * (q * d);
    }
  }

  /** On bars that keep the price relation, %K is NaN during the warm-up and on a window
      whose highest high equals its lowest low, and otherwise a finite percentage between
      0 and 100; the cell is `KCell` of the close and the window's extremes, and the close
      lies between them, so `KCellRange` places it within the range. */
  lemma PercentKCell(bars: seq<Bar>, period: nat, i: nat)
    requires period >= 1 && i < |bars|
    requires Consistent(bars[i])
    ensures i + 1 < period ==> PercentK(bars, period)[i] == None
    ensures i + 1 >= period ==>
      var ll := RollingMin(Lows(bars), period)[i].value;
      var hh := RollingMax(Highs(bars), period)[i].value;
      PercentK(bars, period)[i] == KCell(bars[i].close, ll, hh) &&
      ll <= bars[i].close <= hh &&
      (PercentK(bars, period)[i].None? <==> hh == ll) &&
      (hh != ll ==>
         PercentK(bars, period)[i].Some? && PercentK(bars, period)[i].value.Finite? &&
         0.0 <= PercentK(bars, period)[i].value.value <= 100.0)
  {
    if i + 1 >= period {
      RollingMinAt(Lows(bars), period, i);
      RollingMaxAt(Highs(bars), period, i);
      var ll := RollingMin(Lows(bars), period)[i].value;
      var hh := RollingMax(Highs(bars), period)[i].value;
      assert ll <= Lows(bars)[i] && Highs(bars)[i] <= hh;
      KCellRange(bars[i].close, ll, hh);
    }
  }

  /** The oscillator reads only the bars of its own window: two histories that agree on
      the `period` bars ending at i give the same %K at i. */
  lemma PercentKWindow(bars: seq<Bar>, other: seq<Bar>, period: nat, i: nat)
    requires period >= 1 && period - 1 <= i < |bars| && i < |other|
    requires forall k :: i + 1 - period <= k <= i ==> bars[k] == other[k]
    ensures PercentK(bars, period)[i] == PercentK(other, period)[i]
  {
    assert Lows(bars)[i + 1 - period..i + 1] == Lows(other)[i + 1 - period..i + 1];
    assert Highs(bars)[i + 1 - period..i + 1] == Highs(other)[i + 1 - period..i + 1];
  }
}
