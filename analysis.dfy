/** One instrument from its price history to the printed verdict: the frame gets
    every indicator column, the rules read its last row, and the totals decide. */
module Analysis {
  import opened Wrappers
  import opened Series
  import opened Indicators
  import opened Signals
  import opened Recommendation

  /** What is printed for one instrument: the two lists with their points, the
      verdict and its explanation. */
  datatype Report = Report(signals: Signals, verdict: Verdict, explanation: string)

  /** The report for a price history, or none for an empty history, which is
      skipped with "No data available". */
  function ReportOf(bars: seq<Bar>, fearGreed: Option<real>): (r: Option<Report>)
    ensures r.None? <==> |bars| == 0
    ensures r.Some? ==>
      r.value.signals == SignalsOf(Latest(bars, Annotate(bars)), fearGreed) &&
      r.value.verdict == Recommend(r.value.signals.buyPoints, r.value.signals.sellPoints) &&
      r.value.explanation == ExplanationOf(r.value.verdict)
  {
    if |bars| == 0 then None
    else
      AnnotateAligned(bars);
      var s := SignalsOf(Latest(bars, Annotate(bars)), fearGreed);
      Some(Report(s, Recommend(s.buyPoints, s.sellPoints), Explanation(s.buyPoints, s.sellPoints)))
  }

  /** `calculate_all_indicators` on a fresh frame, then `generate_signals` on its last
      row, then the verdict and the explanation. The VIX reading is passed along and
      changes nothing. */
  method Analyze(bars: seq<Bar>, fearGreed: Option<real>, vix: Option<real>) returns (report: Option<Report>)
    ensures report == ReportOf(bars, fearGreed)
  {
    if |bars| == 0 {
      return None;
    }
    var frame := new Frame(bars);
    frame.CalculateAllIndicators();
    AnnotateAligned(bars);
    var latest := Latest(bars, frame.Derived());
    var buySignals, sellSignals, buyPoints, sellPoints := GenerateSignals(latest, fearGreed, vix);
    var verdict := Recommend(buyPoints, sellPoints);
    var explanation := Explanation(buyPoints, sellPoints);
    report := Some(Report(Signals(buySignals, sellSignals, buyPoints, sellPoints), verdict, explanation));
  }
}
