/** The technology-summary stage stub: a fixed summary merged into the record. */
module TechSummaryAgent {
  import opened Values

  const TechKeys: set<string> := {"tech_summary", "tech_patents", "tech_maturity"}

  const Summary: string := "딥러닝 기반 생체신호 분석"
  const Patents: seq<string> := ["KR-2023-00123", "US-2022-00987"]
  const Maturity: string := "TRL 6 (시제품 단계)"

  function TechFields(): Dict {
    map[
      "tech_summary" := Str(Summary),
      "tech_patents" := List([Str(Patents[0]), Str(Patents[1])]),
      "tech_maturity" := Str(Maturity)
    ]
  }

  /** `TechSummaryAgent.run`: the three technology keys hold the fixed values
      and every other key keeps its value. Python updates the dict in place
      and returns it; as a value, the returned record is the updated input. */
  function Run(input: Dict): (r: Dict)
    ensures r.Keys == input.Keys + TechKeys
    ensures r["tech_summary"] == Str(Summary)
    ensures r["tech_patents"] == List([Str("KR-2023-00123"), Str("US-2022-00987")])
    ensures r["tech_maturity"] == Str(Maturity)
    ensures forall k :: k in input && k !in TechKeys ==> r[k] == input[k]
  {
    Update(input, TechFields())
  }

  /** Running the stage twice gives the same record as running it once. */
  lemma RunIdempotent(input: Dict)
    ensures Run(Run(input)) == Run(input)
  {
    UpdateIdempotent(input, TechFields());
  }
}
