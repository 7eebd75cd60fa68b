/** The verdict `display_market_indicators` draws from the two totals, and the
    explanation it prints beside it. */
module Recommendation {
  datatype Verdict = Buy | Sell | Hold

  /** `recommendation`: Buy when the buy points are strictly higher, Sell when the
      sell points are, and Hold on a tie, no signal on either side included. */
  function Recommend(buyPoints: int, sellPoints: int): (v: Verdict)
    ensures v == Buy <==> buyPoints > sellPoints
    ensures v == Sell <==> sellPoints > buyPoints
    ensures v == Hold <==> buyPoints == sellPoints
  {
    if buyPoints > sellPoints then Buy else if sellPoints > buyPoints then Sell else Hold
  }

  /** The explanation that belongs to each verdict. */
  function ExplanationOf(v: Verdict): string
  {
    match v
    case Buy => "✅ 매수 신호가 매도 신호보다 강함"
    case Sell => "⚠️ 매도 신호가 매수 신호보다 강함"
    case Hold => "〰️ 매수와 매도 신호가 균형을 이룸"
  }

  /** `explanation`: chosen by its own pair of comparisons, which are those of the
      verdict, so it always explains the verdict printed above it. */
  function Explanation(buyPoints: int, sellPoints: int): (e: string)
    ensures e == ExplanationOf(Recommend(buyPoints, sellPoints))
  {
    if buyPoints > sellPoints then "✅ 매수 신호가 매도 신호보다 강함"
    else if sellPoints > buyPoints then "⚠️ 매도 신호가 매수 신호보다 강함"
    else "〰️ 매수와 매도 신호가 균형을 이룸"
  }

  /** The three explanations differ (already in their first character), so the
      explanation tells the verdict. */
  lemma ExplanationsDistinct(v: Verdict, w: Verdict)
    ensures ExplanationOf(v) == ExplanationOf(w) <==> v == w
  {
    if v != w {
      assert ExplanationOf(v)[0] != ExplanationOf(w)[0];
    }
  }

  /** Swapping the totals swaps Buy and Sell and keeps Hold. */
  lemma RecommendMirror(buyPoints: int, sellPoints: int)
    ensures Recommend(buyPoints, sellPoints) == Buy <==> Recommend(sellPoints, buyPoints) == Sell
    ensures Recommend(buyPoints, sellPoints) == Hold <==> Recommend(sellPoints, buyPoints) == Hold
  {
  }
}
