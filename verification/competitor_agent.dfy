/** The competitor stage: extraction of the JSON object from the agent's
    answer, the fixed placeholder records, the per-company merge of a batch,
    and the text rendering of a competitor web search. The agent executor,
    the search client and `json.loads` are parameters. */
module CompetitorAgent {
  import opened Wrappers
  import opened Values
  import opened Text

  const NotAvailable: string := "N/A"
  const AnalysisFailed: string := "분석 실패"
  const SearchErrorPrefix: string := "검색 중 오류 발생: "
  const SummaryPrefix: string := "요약: "
  const ResultsHeader: string := "검색 결과:"
  /** Hit contents are cut to this many characters. */
  const ContentLimit: nat := 200

  /** The keys the competitor stage writes into a company record. */
  const CompetitorKeys: set<string> := {
    "main_competitors", "competitor_profiles", "market_positioning", "product_comparison",
    "unique_value_props", "threat_analysis", "MarketShare", "reference_urls"
  }

  /** The competitor keys that a placeholder fills with "N/A". */
  const FillerKeys: set<string> := {
    "market_positioning", "product_comparison", "unique_value_props", "threat_analysis", "MarketShare"
  }

  // ---------------------------------------------------------------- placeholders

  /** A placeholder record: the given competitor name and profile text, "N/A"
      for the five other text fields and no reference URLs. */
  function Placeholder(main: string, profiles: string): (r: Dict)
    ensures r.Keys == CompetitorKeys
    ensures r["main_competitors"] == Str(main)
    ensures r["competitor_profiles"] == Str(profiles)
    ensures forall k :: k in FillerKeys ==> r[k] == Str(NotAvailable)
    ensures r["reference_urls"] == List([])
  {
    map[
      "main_competitors" := Str(main),
      "competitor_profiles" := Str(profiles),
      "market_positioning" := Str(NotAvailable),
      "product_comparison" := Str(NotAvailable),
      "unique_value_props" := Str(NotAvailable),
      "threat_analysis" := Str(NotAvailable),
      "MarketShare" := Str(NotAvailable),
      "reference_urls" := List([])
    ]
  }

  /** What an unparseable answer becomes: the whole answer as the profile. */
  function Fallback(text: string): (r: Dict)
    ensures r.Keys == CompetitorKeys
    ensures r["main_competitors"] == Str(NotAvailable) && r["competitor_profiles"] == Str(text)
    ensures forall k :: k in FillerKeys ==> r[k] == Str(NotAvailable)
    ensures r["reference_urls"] == List([])
  {
    Placeholder(NotAvailable, text)
  }

  /** What a company whose analysis raised gets: the error text as the profile. */
  function FailureRecord(error: string): (r: Dict)
    ensures r.Keys == CompetitorKeys
    ensures r["main_competitors"] == Str(AnalysisFailed) && r["competitor_profiles"] == Str(error)
    ensures forall k :: k in FillerKeys ==> r[k] == Str(NotAvailable)
    ensures r["reference_urls"] == List([])
  {
    Placeholder(AnalysisFailed, error)
  }

  // ---------------------------------------------------------------- JSON span

  /** `s[i..j+1]` is a match of the pattern `\{[\s\S]*\}`. */
  predicate BraceSpan(s: string, i: int, j: int) {
    0 <= i < j < |s| && s[i] == '{' && s[j] == '}'
  }

  ghost predicate HasBraceSpan(s: string) {
    exists i, j :: BraceSpan(s, i, j)
  }

  /** The match `re.search` reports: the leftmost start, and at that start the
      longest match, since `[\s\S]*` is greedy. */
  ghost predicate LeftmostGreedy(s: string, i: int, j: int) {
    && BraceSpan(s, i, j)
    && forall i', j' :: BraceSpan(s, i', j') ==> i <= i' && (i' == i ==> j' <= j)
  }

  function FirstIndexOf(s: string, c: char): (r: Option<nat>)
    ensures r.Some? ==> r.value < |s| && s[r.value] == c && forall k :: 0 <= k < r.value ==> s[k] != c
    ensures r.None? ==> forall k :: 0 <= k < |s| ==> s[k] != c
  {
    if |s| == 0 then None
    else if s[0] == c then Some(0)
    else match FirstIndexOf(s[1..], c)
      case None => None
      case Some(k) => Some(k + 1)
  }

  function LastIndexOf(s: string, c: char): (r: Option<nat>)
    ensures r.Some? ==> r.value < |s| && s[r.value] == c && forall k :: r.value < k < |s| ==> s[k] != c
    ensures r.None? ==> forall k :: 0 <= k < |s| ==> s[k] != c
  {
    if |s| == 0 then None
    else if s[|s| - 1] == c then Some(|s| - 1)
    else LastIndexOf(s[..|s| - 1], c)
  }

  /** The bounds of the regex match: from the first '{' to the last '}',
      provided the '}' comes after the '{'. */
  function JsonSpanBounds(s: string): (r: Option<(nat, nat)>)
    ensures r.Some? <==> HasBraceSpan(s)
    ensures r.Some? ==> LeftmostGreedy(s, r.value.0, r.value.1)
  {
    match (FirstIndexOf(s, '{'), LastIndexOf(s, '}'))
    case (Some(i), Some(j)) =>
      if i < j then
        assert BraceSpan(s, i, j);
        Some((i, j))
      else
        assert forall i', j' :: BraceSpan(s, i', j') ==> i <= i' && j' <= j;
        None
    case _ => None
  }

  /** The text `re.search(r'\{[\s\S]*\}', s).group(0)` returns, if any. */
  function ExtractJsonSpan(s: string): (r: Option<string>)
    ensures r.Some? <==> HasBraceSpan(s)
    ensures forall i, j :: LeftmostGreedy(s, i, j) ==> r == Some(s[i..j + 1])
    ensures r.Some? ==> |r.value| >= 2 && r.value[0] == '{' && r.value[|r.value| - 1] == '}'
  {
    match JsonSpanBounds(s)
    case None => None
    case Some((i, j)) =>
      assert forall i', j' :: LeftmostGreedy(s, i', j') ==> i' == i && j' == j;
      Some(s[i..j + 1])
  }

  /** `parse_competitor_analysis`: the parsed JSON object of the regex match,
      or the fallback when there is no match or it does not parse. It never
      raises. A JSON text that begins with '{' parses, if at all, to an object,
      so `parse` yields a dictionary. */
  function ParseCompetitorAnalysis(text: string, parse: string -> Option<Dict>): (r: Dict)
    ensures !HasBraceSpan(text) ==> r == Fallback(text)
    ensures forall i, j :: LeftmostGreedy(text, i, j) ==>
      r == parse(text[i..j + 1]).GetOr(Fallback(text))
    ensures r == Fallback(text) || exists span :: parse(span) == Some(r)
  {
    match ExtractJsonSpan(text)
    case None => Fallback(text)
    case Some(span) =>
      match parse(span)
      case None => Fallback(text)
      case Some(d) => d
  }

  // ---------------------------------------------------------------- batch

  /** What one company's analysis contributes: the parsed answer, or the
      failure record when the agent call raised. */
  function Overlay(company: Dict, find: (Value, Value) -> Result<string>,
                   parse: string -> Option<Dict>): (r: Dict)
    ensures var call := find(GetOr(company, "company_name", Str("")), GetOr(company, "core_tech", Str("")));
      && (call.Success? ==> r == ParseCompetitorAnalysis(call.value, parse))
      && (call.Failure? ==>
            && r.Keys == CompetitorKeys
            && r["main_competitors"] == Str(AnalysisFailed)
            && r["competitor_profiles"] == Str(call.error))
  {
    match find(GetOr(company, "company_name", Str("")), GetOr(company, "core_tech", Str("")))
    case Success(text) => ParseCompetitorAnalysis(text, parse)
    case Failure(e) => FailureRecord(e)
  }

  /** One company's output record: a copy of the input with its overlay applied. */
  function Entry(company: Dict, find: (Value, Value) -> Result<string>,
                 parse: string -> Option<Dict>): (r: Dict)
    ensures r.Keys == company.Keys + Overlay(company, find, parse).Keys
    ensures forall key :: key in Overlay(company, find, parse) ==> r[key] == Overlay(company, find, parse)[key]
    ensures forall key :: key in company && key !in Overlay(company, find, parse) ==> r[key] == company[key]
  {
    Update(company, Overlay(company, find, parse))
  }

  /** `analyze_multiple_companies`: one output per input company, in order,
      each a copy of the input record updated with that company's overlay. The
      inputs are values, so no input record changes. */
  method AnalyzeMultipleCompanies(companies: seq<Dict>, find: (Value, Value) -> Result<string>,
                                  parse: string -> Option<Dict>) returns (updated: seq<Dict>)
    ensures |updated| == |companies|
    ensures forall k :: 0 <= k < |companies| ==> updated[k] == Entry(companies[k], find, parse)
  {
    updated := UpdateEach(companies, EntryOf(find, parse));
  }

  /** `Entry` as a function of the company. */
  function EntryOf(find: (Value, Value) -> Result<string>, parse: string -> Option<Dict>): Dict -> Dict {
    company => Entry(company, find, parse)
  }

  /** A batch entry keeps every key its overlay does not set, and a company
      whose analysis raised carries the failure placeholder. */
  lemma BatchEntryShape(company: Dict, find: (Value, Value) -> Result<string>,
                        parse: string -> Option<Dict>)
    ensures var out := Entry(company, find, parse);
      && (forall key :: key in company && key !in Overlay(company, find, parse) ==> out[key] == company[key])
      && (var call := find(GetOr(company, "company_name", Str("")), GetOr(company, "core_tech", Str("")));
          call.Failure? ==>
            && out.Keys == company.Keys + CompetitorKeys
            && out["main_competitors"] == Str(AnalysisFailed)
            && out["competitor_profiles"] == Str(call.error)
            && (forall k :: k in FillerKeys ==> out[k] == Str(NotAvailable))
            && out["reference_urls"] == List([])
            && (forall key :: key in company && key !in CompetitorKeys ==> out[key] == company[key]))
  {
  }

  // ---------------------------------------------------------------- search text

  /** The parts of a search response the tool reads: `answer` (None when
      absent) and the `results` list. */
  datatype SearchResponse = SearchResponse(answer: Value, results: seq<Dict>)

  /** `str(result.get(key, 'N/A'))`. */
  function HitField(hit: Dict, key: string, show: Value -> string): (r: string)
    ensures key !in hit ==> r == NotAvailable
    ensures key in hit && hit[key].Str? ==> r == hit[key].s
    ensures key in hit ==> r == PyStr(show, hit[key])
  {
    PyStr(show, GetOr(hit, key, Str(NotAvailable)))
  }

  /** The four lines of one hit numbered `n`. */
  function HitBlock(hit: Dict, n: nat, show: Value -> string): (r: seq<string>)
    ensures |r| == 4
    ensures r[0] == "\n" + NatToString(n) + ". " + HitField(hit, "title", show)
    ensures r[1] == "   URL: " + HitField(hit, "url", show)
    ensures r[2] == "   내용: " + Take(HitField(hit, "content", show), ContentLimit) + "..."
    ensures r[3] == "   점수: " + HitField(hit, "score", show)
    ensures |r[2]| <= |"   내용: "| + ContentLimit + 3
  {
    [ "\n" + NatToString(n) + ". " + HitField(hit, "title", show),
      "   URL: " + HitField(hit, "url", show),
      "   내용: " + Take(HitField(hit, "content", show), ContentLimit) + "...",
      "   점수: " + HitField(hit, "score", show) ]
  }

  /** The lines of `hits`, numbered consecutively from `start` in provider order. */
  function HitLines(hits: seq<Dict>, start: nat, show: Value -> string): (r: seq<string>)
    ensures |r| == 4 * |hits|
    ensures forall k :: 0 <= k < |hits| ==> r[4 * k..4 * k + 4] == HitBlock(hits[k], start + k, show)
  {
    if |hits| == 0 then []
    else
      var rest := HitLines(hits[1..], start + 1, show);
      var r := HitBlock(hits[0], start, show) + rest;
      assert forall k :: 1 <= k < |hits| ==> r[4 * k..4 * k + 4] == rest[4 * (k - 1)..4 * (k - 1) + 4];
      r
  }

  /** The summary line (only when the answer is truthy), the header, then the hits from 1. */
  function ResultLines(resp: SearchResponse, show: Value -> string): (r: seq<string>)
    ensures var h := if Truthy(resp.answer) then 1 else 0;
      && |r| == h + 1 + 4 * |resp.results|
      && r[h] == ResultsHeader
      && forall k :: 0 <= k < |resp.results| ==>
           r[h + 1 + 4 * k..h + 1 + 4 * k + 4] == HitBlock(resp.results[k], k + 1, show)
    ensures Truthy(resp.answer) ==> r[0] == SummaryPrefix + PyStr(show, resp.answer) + "\n"
  {
    var summary := if Truthy(resp.answer) then [SummaryPrefix + PyStr(show, resp.answer) + "\n"] else [];
    var hits := HitLines(resp.results, 1, show);
    var r := summary + [ResultsHeader] + hits;
    assert forall k :: 0 <= k < |resp.results| ==>
      r[|summary| + 1 + 4 * k..|summary| + 1 + 4 * k + 4] == hits[4 * k..4 * k + 4];
    r
  }

  /** `search_competitor`: the lines joined by newlines, or the error text. */
  function SearchCompetitor(query: string, search: string -> Result<SearchResponse>,
                            show: Value -> string): (r: string)
    ensures search(query).Failure? ==> r == SearchErrorPrefix + search(query).error
    ensures search(query).Success? ==> r == Join("\n", ResultLines(search(query).value, show))
  {
    match search(query)
    case Failure(e) => SearchErrorPrefix + e
    case Success(resp) => Join("\n", ResultLines(resp, show))
  }

  /** The error text is recognisable: the output starts with the error prefix
      exactly when the search raised, and starts with the summary prefix
      exactly when the search returned a truthy answer. */
  lemma SearchCompetitorPrefixes(query: string, search: string -> Result<SearchResponse>,
                                 show: Value -> string)
    ensures StartsWith(SearchCompetitor(query, search, show), SearchErrorPrefix) <==> search(query).Failure?
    ensures search(query).Success? ==>
      (StartsWith(SearchCompetitor(query, search, show), SummaryPrefix) <==> Truthy(search(query).value.answer))
  {
    var r := SearchCompetitor(query, search, show);
    if search(query).Success? {
      var resp := search(query).value;
      var lines := ResultLines(resp, show);
      assert StartsWith(r, lines[0]);
      if Truthy(resp.answer) {
        assert r[..|SummaryPrefix|] == SummaryPrefix;
        assert r[0] != SearchErrorPrefix[0];
      } else {
        assert lines[0] == ResultsHeader;
        assert r[..|ResultsHeader|] == ResultsHeader;
        assert r[3] != SearchErrorPrefix[3];
        assert r[0] != SummaryPrefix[0];
      }
    }
  }
}
