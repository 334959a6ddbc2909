/** The per-company record `InvestmentState` and its defaults. Field names are
    the camel-case forms of the record's keys (`company_name` is `companyName`). */
module InvestmentStateModel {
  import opened Wrappers
  import opened Values

  /** `investments` accepts a string, a list of dicts or a dict. */
  datatype Investments = InvText(text: string) | InvList(entries: seq<Dict>) | InvDict(fields: Dict)

  datatype InvestmentState = InvestmentState(
    // basic company information
    companyName: string,
    owner: string,
    coreTech: string,
    pros: string,
    patents: string,
    investments: Investments,
    // technology summary stage
    techSummary: string,
    strengthsAndWeaknesses: string,
    differentiationPoints: string,
    technicalRisks: string,
    patentsAndPapers: seq<string>,
    confidenceScore: real,
    // market evaluation stage
    industryTrends: string,
    marketSize: string,
    regulatoryBarriers: string,
    customerSegments: string,
    // competitor stage
    mainCompetitors: string,
    competitorProfiles: string,
    marketPositioning: string,
    productComparison: string,
    uniqueValueProps: string,
    threatAnalysis: string,
    marketShare: string,
    referenceUrls: seq<string>,
    // investment stage
    scores: map<string, int>,
    totalScore: real,
    decision: string,
    // report stage
    reportPath: string)

  /** Every text field empty, every list and the score map empty, both floats zero. */
  predicate Blank(s: InvestmentState) {
    && s.companyName == "" && s.owner == "" && s.coreTech == "" && s.pros == ""
    && s.patents == "" && s.investments == InvText("")
    && s.techSummary == "" && s.strengthsAndWeaknesses == ""
    && s.differentiationPoints == "" && s.technicalRisks == ""
    && s.patentsAndPapers == [] && s.confidenceScore == 0.0
    && s.industryTrends == "" && s.marketSize == "" && s.regulatoryBarriers == ""
    && s.customerSegments == ""
    && s.mainCompetitors == "" && s.competitorProfiles == "" && s.marketPositioning == ""
    && s.productComparison == "" && s.uniqueValueProps == "" && s.threatAnalysis == ""
    && s.marketShare == "" && s.referenceUrls == []
    && s.scores == map[] && s.totalScore == 0.0 && s.decision == ""
    && s.reportPath == ""
  }

  /** An empty `report_path` means no report was generated. */
  predicate HasReport(s: InvestmentState) {
    s.reportPath != ""
  }

  /** `InvestmentState()` with no arguments. */
  function Default(): (r: InvestmentState)
    ensures Blank(r)
    ensures !HasReport(r)
  {
    InvestmentState(
      "", "", "", "", "", InvText(""),
      "", "", "", "", [], 0.0,
      "", "", "", "",
      "", "", "", "", "", "", "", [],
      map[], 0.0, "",
      "")
  }

  /** Validation of a value for the `investments` field: a string, a list whose
      elements are all dicts, or a dict; anything else is rejected. */
  function ToInvestments(v: Value): (r: Option<Investments>)
    ensures v.Str? ==> r == Some(InvText(v.s))
    ensures v.Obj? ==> r == Some(InvDict(v.fields))
    ensures r.Some? ==> v.Str? || v.List? || v.Obj?
    ensures v.List? ==> (r.Some? <==> forall i :: 0 <= i < |v.items| ==> v.items[i].Obj?)
    ensures v.List? && r.Some? ==>
      && r.value.InvList? && |r.value.entries| == |v.items|
      && forall i :: 0 <= i < |v.items| ==> v.items[i] == Obj(r.value.entries[i])
  {
    match v
    case Str(s) => Some(InvText(s))
    case Obj(m) => Some(InvDict(m))
    case List(xs) =>
      if forall i :: 0 <= i < |xs| ==> xs[i].Obj?
      then Some(InvList(seq(|xs|, i requires 0 <= i < |xs| => xs[i].fields)))
      else None
    case _ => None
  }
}
