/** The daily OHLCV history of one instrument, as the data source hands it over. */
module Series {

  /** The calendar position of a bar, kept abstract: the index of the calendar week it
      falls in, and whether its timestamp is exactly the instant that closes that week
      (the label of the week's resampling bin; a bar dated on a Sunday for instance). */
  datatype Stamp = Stamp(week: int, atWeekEnd: bool)

  /** One trading day. Prices are real numbers; the volume is a non-negative integer
      share count, as the data source delivers it. */
  datatype Bar = Bar(stamp: Stamp, open: real, high: real, low: real, close: real, volume: nat)

  /** The price relation every bar delivered by the data source satisfies. */
  predicate Consistent(b: Bar)
  {
    b.low <= b.open <= b.high && b.low <= b.close <= b.high
  }

  predicate AllConsistent(bars: seq<Bar>)
  {
    forall i :: 0 <= i < |bars| ==> Consistent(bars[i])
  }

  /** The series is in date order: weeks never go back, and a bar that closes its week
      is the last bar of that week. */
  predicate Chronological(bars: seq<Bar>)
  {
    (forall i, j :: 0 <= i < j < |bars| ==> bars[i].stamp.week <= bars[j].stamp.week) &&
    (forall i :: 0 <= i < |bars| - 1 && bars[i].stamp.atWeekEnd ==>
       bars[i].stamp.week < bars[i + 1].stamp.week)
  }

  function Closes(bars: seq<Bar>): (c: seq<real>)
    ensures |c| == |bars|
    ensures forall i :: 0 <= i < |bars| ==> c[i] == bars[i].close
  {
    seq(|bars|, i requires 0 <= i < |bars| => bars[i].close)
  }

  function Highs(bars: seq<Bar>): (h: seq<real>)
    ensures |h| == |bars|
    ensures forall i :: 0 <= i < |bars| ==> h[i] == bars[i].high
  {
    seq(|bars|, i requires 0 <= i < |bars| => bars[i].high)
  }

  function Lows(bars: seq<Bar>): (l: seq<real>)
    ensures |l| == |bars|
    ensures forall i :: 0 <= i < |bars| ==> l[i] == bars[i].low
  {
    seq(|bars|, i requires 0 <= i < |bars| => bars[i].low)
  }
}
