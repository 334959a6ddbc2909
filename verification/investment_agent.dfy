/** The investment stage stub: a decision from a substring test on the
    market evaluation text. */
module InvestmentAgent {
  import opened Values
  import opened Text

  const Growth: string := "성장"
  const Recommend: string := "투자 추천"
  const Hold: string := "투자 보류"

  const DecisionKeys: set<string> := {"investment_decision", "competitor_analysis", "market_eval"}

  /** `InvestmentAgent.run`: recommend exactly when the market evaluation
      mentions growth, otherwise hold; both inputs are passed through. */
  function Run(marketEval: string, competitorAnalysis: string): (r: Dict)
    ensures r.Keys == DecisionKeys
    ensures r["investment_decision"] == Str(Recommend) <==> Contains(marketEval, Growth)
    ensures r["investment_decision"] == Str(Hold) <==> !Contains(marketEval, Growth)
    ensures r["competitor_analysis"] == Str(competitorAnalysis)
    ensures r["market_eval"] == Str(marketEval)
  {
    FindIffContains(marketEval, Growth);
    var decision := if Find(marketEval, Growth, 0).Some? then Recommend else Hold;
    map[
      "investment_decision" := Str(decision),
      "competitor_analysis" := Str(competitorAnalysis),
      "market_eval" := Str(marketEval)
    ]
  }
}
