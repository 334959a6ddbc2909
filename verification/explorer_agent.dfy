/** The explorer stage: company discovery from the vector store, the per-company
    profile built from the agent's JSON answer, and the two search tools. The
    agent executor, the retriever and the web-search client are parameters. */
module ExplorerAgent {
  import opened Wrappers
  import opened Values
  import opened Text
  import opened InvestmentStateModel

  /** The "insufficient" sentinel that both search tools return. */
  const Insufficient: string := "부족"

  /** A vector-store document: its text and its metadata dict. */
  datatype Doc = Doc(pageContent: string, metadata: Dict)

  /** Some document carries `v` as its `company` metadata. */
  predicate TaggedWith(docs: seq<Doc>, v: Value) {
    exists k :: 0 <= k < |docs| && "company" in docs[k].metadata && docs[k].metadata["company"] == v
  }

  // ---------------------------------------------------------------- companies

  /** The `company` metadata values in index order, duplicates kept; documents
      without the key contribute nothing. */
  function CompanyValues(docs: seq<Doc>): (r: seq<Value>)
    ensures forall v :: v in r <==> TaggedWith(docs, v)
  {
    if |docs| == 0 then []
    else
      var init := docs[..|docs| - 1];
      var last := docs[|docs| - 1];
      var rest := CompanyValues(init);
      assert forall v :: TaggedWith(docs, v) <==> TaggedWith(init, v) || ("company" in last.metadata && last.metadata["company"] == v) by {
        forall v | TaggedWith(init, v) ensures TaggedWith(docs, v) {
          var k :| 0 <= k < |init| && "company" in init[k].metadata && init[k].metadata["company"] == v;
          assert docs[k] == init[k];
        }
        forall v | TaggedWith(docs, v) && !("company" in last.metadata && last.metadata["company"] == v)
          ensures TaggedWith(init, v)
        {
          var k :| 0 <= k < |docs| && "company" in docs[k].metadata && docs[k].metadata["company"] == v;
          assert k < |init| && init[k] == docs[k];
        }
      }
      if "company" in last.metadata then rest + [last.metadata["company"]] else rest
  }

  /** Keeps the first occurrence of every value. */
  function Dedup(xs: seq<Value>): (r: seq<Value>)
    ensures Distinct(r)
    ensures forall v :: v in r <==> v in xs
  {
    if |xs| == 0 then []
    else
      var rest := Dedup(xs[..|xs| - 1]);
      assert forall v :: v in xs <==> v in xs[..|xs| - 1] || v == xs[|xs| - 1] by {
        assert xs == xs[..|xs| - 1] + [xs[|xs| - 1]];
      }
      if xs[|xs| - 1] in rest then rest else rest + [xs[|xs| - 1]]
  }

  /** `get_available_companies`: each distinct `company` value once. With no
      docstore the list is empty; an unhashable value makes `set.add` raise.
      Python's `list(set)` has no defined order; this model keeps first occurrence. */
  function AvailableCompanies(docstore: Option<seq<Doc>>): (r: Result<seq<Value>>)
    ensures docstore.None? ==> r == Success([])
    ensures docstore.Some? ==>
      (r.Failure? <==> exists v :: TaggedWith(docstore.value, v) && !Hashable(v))
    ensures r.Success? ==> Distinct(r.value)
    ensures r.Success? ==> forall v :: v in r.value <==> docstore.Some? && TaggedWith(docstore.value, v)
  {
    match docstore
    case None => Success([])
    case Some(docs) =>
      var vals := CompanyValues(docs);
      if exists i :: 0 <= i < |vals| && !Hashable(vals[i]) then
        Failure("unhashable type")
      else
        assert forall v :: TaggedWith(docs, v) ==> Hashable(v) by {
          forall v | TaggedWith(docs, v) ensures Hashable(v) {
            assert v in vals;
          }
        }
        Success(Dedup(vals))
  }

  // ---------------------------------------------------------------- profile

  /** The agent's answer with surrounding whitespace stripped and every "```json",
      then every "```", removed. */
  function CleanFences(raw: string): (r: string)
    ensures !Contains(r, "```")
    ensures (forall i :: 0 <= i < |raw| ==> raw[i] != '`') ==> r == Strip(raw)
  {
    NoBacktickNoFence(Strip(raw));
    ReplaceAbsent(Strip(raw), "```json", "");
    var t := ReplaceAll(Strip(raw), "```json", "");
    ReplaceAbsent(t, "```", "");
    RemovalLeavesNoFence(t);
    ReplaceAll(t, "```", "")
  }

  /** A backtick-free JSON body in a ```json fence comes out exactly as the body. */
  lemma FencedAnswer(b: string)
    ensures (forall i :: 0 <= i < |b| ==> b[i] != '`') ==> CleanFences("```json" + b + "```") == b
  {
    if forall i :: 0 <= i < |b| ==> b[i] != '`' {
      var raw := "```json" + b + "```";
      assert raw[0] == '`' && raw[|raw| - 1] == '`';
      StripUnpadded(raw);
      OpeningFenceRemoved(b);
      DropClosingFence(b);
    }
  }

  /** The executor's answer as text: the `output` entry of a dict response (which
      must be a string for `.strip()`), otherwise `str(response)`. */
  function RawOutput(response: Result<Value>, show: Value -> string): (r: Result<string>)
    ensures response.Failure? ==> r.Failure?
    ensures response.Success? && response.value.Str? ==> r == Success(response.value.s)
    ensures response.Success? && response.value.Obj? ==>
      var out := GetOr(response.value.fields, "output", Str(""));
      && (out.Str? ==> r == Success(out.s))
      && (!out.Str? ==> r.Failure?)
    ensures response.Success? && !response.value.Obj? ==> r == Success(PyStr(show, response.value))
  {
    match response
    case Failure(e) => Failure(e)
    case Success(Obj(d)) =>
      var out := GetOr(d, "output", Str(""));
      if out.Str? then Success(out.s) else Failure("output has no attribute 'strip'")
    case Success(v) => Success(PyStr(show, v))
  }

  /** What the `try` block leaves in `parsed`: the parsed answer, or `{}` when
      the agent call, the text extraction or the JSON parse fails. */
  function ParsedOutput(response: Result<Value>, parse: string -> Option<Value>,
                        show: Value -> string): (r: Value)
    ensures RawOutput(response, show).Failure? ==> r == Obj(map[])
    ensures response.Failure? ==> r == Obj(map[])
    ensures RawOutput(response, show).Success? && parse(CleanFences(RawOutput(response, show).value)).None?
            ==> r == Obj(map[])
    ensures RawOutput(response, show).Success? && parse(CleanFences(RawOutput(response, show).value)).Some?
            ==> r == parse(CleanFences(RawOutput(response, show).value)).value
  {
    match RawOutput(response, show)
    case Failure(_) => Obj(map[])
    case Success(text) =>
      match parse(CleanFences(text))
      case None => Obj(map[])
      case Some(v) => v
  }

  /** A profile field of the parsed answer: `parsed.get(key, "")`. */
  function Field(parsed: Dict, key: string): (r: Value)
    ensures key in parsed ==> r == parsed[key]
    ensures key !in parsed ==> r == Str("")
  {
    GetOr(parsed, key, Str(""))
  }

  /** The record differs from the default only in the six profile fields. */
  predicate ProfileOnly(s: InvestmentState) {
    s.(companyName := "", owner := "", coreTech := "", pros := "", patents := "",
       investments := InvText("")) == Default()
  }

  /** `InvestmentState(company_name=..., owner=..., ...)`: validation accepts
      strings for the text fields and a string, list of dicts or dict for
      `investments`; anything else is a validation error. */
  function BuildState(name: Value, parsed: Dict): (r: Result<InvestmentState>)
    ensures r.Success? <==>
      && name.Str?
      && Field(parsed, "owner").Str? && Field(parsed, "core_tech").Str?
      && Field(parsed, "pros").Str? && Field(parsed, "patents").Str?
      && ToInvestments(Field(parsed, "investments")).Some?
    ensures r.Success? ==> name.Str? && r.value.companyName == name.s && ProfileOnly(r.value)
    ensures r.Success? ==>
      && r.value.owner == Field(parsed, "owner").s
      && r.value.coreTech == Field(parsed, "core_tech").s
      && r.value.pros == Field(parsed, "pros").s
      && r.value.patents == Field(parsed, "patents").s
    ensures r.Success? && "owner" !in parsed ==> r.value.owner == ""
    ensures r.Success? && "core_tech" !in parsed ==> r.value.coreTech == ""
    ensures r.Success? && "pros" !in parsed ==> r.value.pros == ""
    ensures r.Success? && "patents" !in parsed ==> r.value.patents == ""
    ensures r.Success? && "investments" !in parsed ==> r.value.investments == InvText("")
    ensures r.Success? ==> ToInvestments(Field(parsed, "investments")) == Some(r.value.investments)
  {
    var owner := Field(parsed, "owner");
    var coreTech := Field(parsed, "core_tech");
    var pros := Field(parsed, "pros");
    var patents := Field(parsed, "patents");
    var investments := ToInvestments(Field(parsed, "investments"));
    if !name.Str? || !owner.Str? || !coreTech.Str? || !pros.Str? || !patents.Str? || investments.None? then
      Failure("validation error for InvestmentState")
    else
      Success(Default().(companyName := name.s, owner := owner.s, coreTech := coreTech.s,
                         pros := pros.s, patents := patents.s, investments := investments.value))
  }

  /** The record with only the company name set: what a failed analysis yields. */
  function EmptyProfile(name: string): (r: InvestmentState)
    ensures r.companyName == name
    ensures r.owner == "" && r.coreTech == "" && r.pros == "" && r.patents == ""
    ensures r.investments == InvText("")
    ensures ProfileOnly(r)
  {
    Default().(companyName := name)
  }

  /** `analyze_single_company` as written: `parsed.get` runs outside the `try`,
      so an answer that parses to a JSON value other than an object raises. */
  function AnalyzeSingleCompanyAsWritten(name: Value, response: Result<Value>,
                                         parse: string -> Option<Value>,
                                         show: Value -> string): (r: Result<InvestmentState>)
    ensures name.Str? && ParsedOutput(response, parse, show) == Obj(map[]) ==> r == Success(EmptyProfile(name.s))
    ensures !ParsedOutput(response, parse, show).Obj? ==> r.Failure?
    ensures ParsedOutput(response, parse, show).Obj? ==>
      r == BuildState(name, ParsedOutput(response, parse, show).fields)
    ensures r.Success? ==> name.Str? && r.value.companyName == name.s
  {
    var parsed := ParsedOutput(response, parse, show);
    if parsed.Obj? then BuildState(name, parsed.fields)
    else Failure("object has no attribute 'get'")
  }

  /** A model answer of `[]` parses, yet the as-written analysis raises. */
  lemma NonObjectAnswerRaises()
    ensures AnalyzeSingleCompanyAsWritten(Str("Acme"), Success(Str("[]")),
                                          s => Some(List([])), v => "").Failure?
  {
    assert ParsedOutput(Success(Str("[]")), s => Some(List([])), v => "") == List([]);
  }

  /** `analyze_single_company` with the evident intent: whatever the answer
      parses to, anything but a JSON object counts as `{}`, so a failed call,
      a failed parse or a non-object answer all give the empty profile. */
  function AnalyzeSingleCompany(name: Value, response: Result<Value>,
                                parse: string -> Option<Value>,
                                show: Value -> string): (r: Result<InvestmentState>)
    ensures name.Str? && !ParsedOutput(response, parse, show).Obj? ==> r == Success(EmptyProfile(name.s))
    ensures name.Str? && response.Failure? ==> r == Success(EmptyProfile(name.s))
    ensures r.Success? ==> name.Str? && r.value.companyName == name.s && ProfileOnly(r.value)
    ensures ParsedOutput(response, parse, show).Obj? ==>
      r == AnalyzeSingleCompanyAsWritten(name, response, parse, show)
  {
    var parsed := ParsedOutput(response, parse, show);
    BuildState(name, if parsed.Obj? then parsed.fields else map[])
  }

  // ---------------------------------------------------------------- run

  /** The as-written analysis of each company by the agent, as a function of the company. */
  function AnalysisOf(agent: Value -> Result<Value>, parse: string -> Option<Value>,
                      show: Value -> string): Value -> Result<InvestmentState>
  {
    company => AnalyzeSingleCompanyAsWritten(company, agent(company), parse, show)
  }

  /** The corrected analysis of each company, as a function of the company. */
  function CorrectedAnalysisOf(agent: Value -> Result<Value>, parse: string -> Option<Value>,
                               show: Value -> string): Value -> Result<InvestmentState>
  {
    company => AnalyzeSingleCompany(company, agent(company), parse, show)
  }

  /** The loop of `run` over already computed per-company outcomes: all the
      records in order, or the first failure, which ends the run. */
  function CollectAll<T>(outcomes: seq<Result<T>>): (r: Result<seq<T>>)
    ensures r.Success? <==> forall k :: 0 <= k < |outcomes| ==> outcomes[k].Success?
    ensures r.Success? ==> |r.value| == |outcomes|
    ensures r.Success? ==> forall k :: 0 <= k < |outcomes| ==> r.value[k] == outcomes[k].value
  {
    if |outcomes| == 0 then Success([])
    else
      match CollectAll(outcomes[..|outcomes| - 1])
      case Failure(e) => Failure(e)
      case Success(values) =>
        match outcomes[|outcomes| - 1]
        case Failure(e) => Failure(e)
        case Success(v) => Success(values + [v])
  }

  /** The analysis of every company, in list order: entry `k` is company `k`'s. */
  function AnalyzeEach(companies: seq<Value>, analyze: Value -> Result<InvestmentState>)
    : (r: seq<Result<InvestmentState>>)
    ensures |r| == |companies|
    ensures forall k :: 0 <= k < |companies| ==> r[k] == analyze(companies[k])
  {
    seq(|companies|, k requires 0 <= k < |companies| => analyze(companies[k]))
  }

  /** The loop of `run` for a given analysis: `[]` without companies, else
      every company's record in order, or the first failure. */
  function RunWith(companies: Result<seq<Value>>, analyze: Value -> Result<InvestmentState>)
    : (r: Result<seq<InvestmentState>>)
    ensures companies.Failure? ==> r.Failure?
    ensures companies.Success? ==>
      (r.Success? <==> forall k :: 0 <= k < |companies.value| ==> analyze(companies.value[k]).Success?)
    ensures r.Success? ==>
      && |r.value| == |companies.value|
      && forall k :: 0 <= k < |companies.value| ==> r.value[k] == analyze(companies.value[k]).value
  {
    match companies
    case Failure(e) => Failure(e)
    case Success(cs) =>
      if |cs| == 0 then Success([])
      else CollectAll(AnalyzeEach(cs, analyze))
  }

  /** `run` as written: one record per available company, in list order, each
      the as-written analysis of that company, so it raises as soon as one
      analysis raises; no companies give `[]`. */
  function Run(docstore: Option<seq<Doc>>, agent: Value -> Result<Value>,
               parse: string -> Option<Value>, show: Value -> string): (r: Result<seq<InvestmentState>>)
    ensures AvailableCompanies(docstore) == Success([]) ==> r == Success([])
    ensures AvailableCompanies(docstore).Failure? ==> r.Failure?
    ensures AvailableCompanies(docstore).Success? ==>
      var companies := AvailableCompanies(docstore).value;
      r.Success? <==> forall k :: 0 <= k < |companies| ==>
        AnalyzeSingleCompanyAsWritten(companies[k], agent(companies[k]), parse, show).Success?
    ensures r.Success? ==>
      var companies := AvailableCompanies(docstore).value;
      && |r.value| == |companies|
      && forall k :: 0 <= k < |companies| ==>
           && r.value[k] == AnalyzeSingleCompanyAsWritten(companies[k], agent(companies[k]), parse, show).value
           && companies[k].Str? && r.value[k].companyName == companies[k].s
  {
    RunWith(AvailableCompanies(docstore), AnalysisOf(agent, parse, show))
  }

  /** `run` built on the corrected analysis: a company whose answer is not a
      JSON object gets its empty profile instead of ending the run. */
  function RunCorrected(docstore: Option<seq<Doc>>, agent: Value -> Result<Value>,
                        parse: string -> Option<Value>, show: Value -> string): (r: Result<seq<InvestmentState>>)
    ensures AvailableCompanies(docstore) == Success([]) ==> r == Success([])
    ensures AvailableCompanies(docstore).Failure? ==> r.Failure?
    ensures AvailableCompanies(docstore).Success? ==>
      var companies := AvailableCompanies(docstore).value;
      r.Success? <==> forall k :: 0 <= k < |companies| ==>
        AnalyzeSingleCompany(companies[k], agent(companies[k]), parse, show).Success?
    ensures r.Success? ==>
      var companies := AvailableCompanies(docstore).value;
      && |r.value| == |companies|
      && forall k :: 0 <= k < |companies| ==>
           && r.value[k] == AnalyzeSingleCompany(companies[k], agent(companies[k]), parse, show).value
           && companies[k].Str? && r.value[k].companyName == companies[k].s
  {
    RunWith(AvailableCompanies(docstore), CorrectedAnalysisOf(agent, parse, show))
  }

  /** When every answer is a JSON object the two runs agree. */
  lemma RunsAgreeOnObjectAnswers(docstore: Option<seq<Doc>>, agent: Value -> Result<Value>,
                                 parse: string -> Option<Value>, show: Value -> string)
    requires AvailableCompanies(docstore).Success?
    requires var companies := AvailableCompanies(docstore).value;
      forall k :: 0 <= k < |companies| ==> ParsedOutput(agent(companies[k]), parse, show).Obj?
    ensures Run(docstore, agent, parse, show) == RunCorrected(docstore, agent, parse, show)
  {
    var companies := AvailableCompanies(docstore).value;
    var asWritten := AnalyzeEach(companies, AnalysisOf(agent, parse, show));
    var corrected := AnalyzeEach(companies, CorrectedAnalysisOf(agent, parse, show));
    assert asWritten == corrected;
  }

  /** A store whose one document is tagged "Acme" lists that one company. */
  lemma OneTaggedDocument()
    ensures AvailableCompanies(Some([Doc("", map["company" := Str("Acme")])])) == Success([Str("Acme")])
  {
    var docs := [Doc("", map["company" := Str("Acme")])];
    assert CompanyValues(docs) == CompanyValues(docs[..0]) + [Str("Acme")];
    assert Dedup([Str("Acme")]) == Dedup([Str("Acme")][..0]) + [Str("Acme")];
  }

  /** The as-written and the corrected analysis of a company whose agent answers
      a text that parses to `[]`. */
  lemma ListAnswerAnalyses(agent: Value -> Result<Value>, parse: string -> Option<Value>, show: Value -> string)
    requires agent(Str("Acme")) == Success(Str("[]")) && parse(CleanFences("[]")) == Some(List([]))
    ensures AnalyzeSingleCompanyAsWritten(Str("Acme"), agent(Str("Acme")), parse, show).Failure?
    ensures AnalyzeSingleCompany(Str("Acme"), agent(Str("Acme")), parse, show) == Success(EmptyProfile("Acme"))
  {
    assert ParsedOutput(agent(Str("Acme")), parse, show) == List([]);
  }

  /** One company whose agent answers `[]`: the source's `run` raises, the
      corrected run yields that company's empty profile. */
  lemma RunOnListAnswer(agent: Value -> Result<Value>, parse: string -> Option<Value>, show: Value -> string)
    requires agent(Str("Acme")) == Success(Str("[]")) && parse(CleanFences("[]")) == Some(List([]))
    ensures var docstore := Some([Doc("", map["company" := Str("Acme")])]);
      && Run(docstore, agent, parse, show).Failure?
      && RunCorrected(docstore, agent, parse, show) == Success([EmptyProfile("Acme")])
  {
    OneTaggedDocument();
    ListAnswerAnalyses(agent, parse, show);
    var docstore := Some([Doc("", map["company" := Str("Acme")])]);
    var corrected := RunCorrected(docstore, agent, parse, show);
    assert corrected.Success?;
    assert corrected.value == [EmptyProfile("Acme")];
    assert Run(docstore, agent, parse, show).Failure?;
  }

  // ---------------------------------------------------------------- search tools

  function Contents(docs: seq<Doc>): (r: seq<string>)
    ensures |r| == |docs|
    ensures forall k :: 0 <= k < |docs| ==> r[k] == docs[k].pageContent
  {
    seq(|docs|, k requires 0 <= k < |docs| => docs[k].pageContent)
  }

  /** `rag_search`: the retriever is asked for `query` restricted to documents
      of `companyName`; the contents are joined with blank lines in retrieval
      order, or the sentinel when nothing comes back. */
  function RagSearch(query: string, companyName: string,
                     retrieve: (string, string) -> seq<Doc>): (r: string)
    ensures |retrieve(query, companyName)| == 0 ==> r == Insufficient
    ensures |retrieve(query, companyName)| > 0 ==> r == Join("\n\n", Contents(retrieve(query, companyName)))
  {
    var docs := retrieve(query, companyName);
    if |docs| == 0 then Insufficient else Join("\n\n", Contents(docs))
  }

  /** Joining text pieces gives the sentinel only for the single piece "부족". */
  lemma JoinIsInsufficient(sep: string, parts: seq<string>)
    requires |parts| >= 1 && |sep| >= 1 && sep[0] == '\n'
    ensures Join(sep, parts) == Insufficient <==> parts == [Insufficient]
  {
    if |parts| >= 2 {
      JoinHasSeparator(sep, parts);
    }
  }

  /** The sentinel comes back exactly when no document is retrieved or the only
      document retrieved reads "부족". */
  lemma RagSearchInsufficient(query: string, companyName: string,
                              retrieve: (string, string) -> seq<Doc>)
    ensures RagSearch(query, companyName, retrieve) == Insufficient <==>
      var docs := retrieve(query, companyName);
      |docs| == 0 || (|docs| == 1 && docs[0].pageContent == Insufficient)
  {
    var docs := retrieve(query, companyName);
    if |docs| > 0 {
      JoinIsInsufficient("\n\n", Contents(docs));
      if |docs| == 1 {
        assert Contents(docs) == [docs[0].pageContent];
      }
    }
  }

  /** The `content` entries of the web results (`item.get("content", "")`). */
  function WebContents(items: seq<Dict>): (r: seq<Value>)
    ensures |r| == |items|
    ensures forall k :: 0 <= k < |items| ==> r[k] == GetOr(items[k], "content", Str(""))
  {
    seq(|items|, k requires 0 <= k < |items| => GetOr(items[k], "content", Str("")))
  }

  predicate AllText(vs: seq<Value>) {
    forall k :: 0 <= k < |vs| ==> vs[k].Str?
  }

  function Texts(vs: seq<Value>): (r: seq<string>)
    requires AllText(vs)
    ensures |r| == |vs|
    ensures forall k :: 0 <= k < |vs| ==> r[k] == vs[k].s
  {
    seq(|vs|, k requires 0 <= k < |vs| => vs[k].s)
  }

  /** `web_search`: the result contents joined by newlines; no results, a
      client error, or a non-text content (which makes `join` raise inside the
      `try`) all give the sentinel. */
  function WebSearch(query: string, search: string -> Result<seq<Dict>>): (r: string)
    ensures search(query).Failure? ==> r == Insufficient
    ensures search(query).Success? && |search(query).value| == 0 ==> r == Insufficient
    ensures search(query).Success? && !AllText(WebContents(search(query).value)) ==> r == Insufficient
    ensures search(query).Success? && |search(query).value| > 0 && AllText(WebContents(search(query).value))
            ==> r == Join("\n", Texts(WebContents(search(query).value)))
  {
    match search(query)
    case Failure(_) => Insufficient
    case Success(items) =>
      var contents := WebContents(items);
      if |contents| == 0 then Insufficient
      else if !AllText(contents) then Insufficient
      else Join("\n", Texts(contents))
  }

  /** The sentinel comes back exactly on an error, on no results, on a
      non-text content, or when the only result's content reads "부족". */
  lemma WebSearchInsufficient(query: string, search: string -> Result<seq<Dict>>)
    ensures WebSearch(query, search) == Insufficient <==>
      || search(query).Failure?
      || |search(query).value| == 0
      || !AllText(WebContents(search(query).value))
      || (|search(query).value| == 1 && WebContents(search(query).value)[0] == Str(Insufficient))
  {
    if search(query).Success? {
      var contents := WebContents(search(query).value);
      if |contents| > 0 && AllText(contents) {
        JoinIsInsufficient("\n", Texts(contents));
        if |contents| == 1 {
          assert Texts(contents) == [contents[0].s];
        }
      }
    }
  }
}
