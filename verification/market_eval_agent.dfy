/** The market-evaluation stage: the relevance filter over search results,
    the evidence list, the projection of the filtered results onto the market
    schema, the per-company merge, and the result-file name. The search
    client, the relevance checker and today's date are parameters. */
module MarketEvalAgent {
  import opened Wrappers
  import opened Values
  import opened Text

  /** The claim of an evidence entry whose result has no title. */
  const DefaultClaim: string := "검색 결과"

  /** The keys `generate_market_data` returns and `run` merges into a company. */
  const MarketKeys: set<string> := {"industry_trends", "market_size", "regulatory_barriers", "evidence"}

  // ---------------------------------------------------------------- subsequences

  /** `a` can be obtained from `b` by deleting elements. */
  predicate IsSubsequence<T(==)>(a: seq<T>, b: seq<T>)
    decreases |b|
  {
    if |a| == 0 then true
    else if |b| == 0 then false
    else if a[|a| - 1] == b[|b| - 1] then IsSubsequence(a[..|a| - 1], b[..|b| - 1])
    else IsSubsequence(a, b[..|b| - 1])
  }

  lemma {:induction false} SubsequenceExtend<T>(a: seq<T>, b: seq<T>, x: T)
    requires IsSubsequence(a, b)
    ensures IsSubsequence(a, b + [x])
    decreases |b|, 1
  {
    var b' := b + [x];
    assert b'[..|b'| - 1] == b;
    if |a| > 0 && a[|a| - 1] == x {
      SubsequenceDropLast(a, b);
    }
  }

  lemma {:induction false} SubsequenceDropLast<T>(a: seq<T>, b: seq<T>)
    requires |a| > 0 && IsSubsequence(a, b)
    ensures IsSubsequence(a[..|a| - 1], b)
    decreases |b|, 0
  {
    var a' := a[..|a| - 1];
    var b' := b[..|b| - 1];
    assert b == b' + [b[|b| - 1]];
    if a[|a| - 1] == b[|b| - 1] {
      SubsequenceExtend(a', b', b[|b| - 1]);
    } else {
      SubsequenceDropLast(a, b');
      SubsequenceExtend(a', b', b[|b| - 1]);
    }
  }

  // ---------------------------------------------------------------- relevance

  /** The context the checker sees: a dict's `snippet`, else its `title`, else
      ""; for any other item its `str()`. */
  function Context(item: Value, show: Value -> string): (r: Value)
    ensures item.Obj? && Truthy(Get(item.fields, "snippet")) ==> r == Get(item.fields, "snippet")
    ensures item.Obj? && !Truthy(Get(item.fields, "snippet")) && Truthy(Get(item.fields, "title"))
            ==> r == Get(item.fields, "title")
    ensures item.Obj? && !Truthy(Get(item.fields, "snippet")) && !Truthy(Get(item.fields, "title"))
            ==> r == Str("")
    ensures !item.Obj? ==> r == Str(PyStr(show, item))
  {
    match item
    case Obj(d) =>
      var title := Or(Get(d, "title"), Str(""));
      Or(Get(d, "snippet"), title)
    case _ => Str(PyStr(show, item))
  }

  /** The question the checker is asked: `f"{company_name} {query}"`. */
  function Question(subject: string, query: string): string {
    subject + " " + query
  }

  /** The question is the subject, one space, then the query, and nothing else. */
  lemma QuestionShape(subject: string, query: string)
    ensures var r := Question(subject, query);
      |r| == |subject| + 1 + |query| &&
      StartsWith(r, subject) && r[|subject|] == ' ' && r[|subject| + 1..] == query
  {
  }

  /** `score.lower().startswith("y")`. */
  predicate IsYes(score: string) {
    StartsWith(Lower(score), "y")
  }

  /** A "yes" is any score whose first character is 'y' or 'Y'. */
  lemma IsYesFirstChar(score: string)
    ensures IsYes(score) <==> |score| > 0 && (score[0] == 'y' || score[0] == 'Y')
  {
    if |score| > 0 {
      assert Lower(score)[..1] == [LowerChar(score[0])];
    }
  }

  /** The checker judges `item` relevant. */
  predicate Keep(subject: string, query: string, checker: (string, Value) -> string,
                 show: Value -> string, item: Value) {
    IsYes(checker(Question(subject, query), Context(item, show)))
  }

  /** Reference definition: the items the checker keeps, in input order. */
  function Relevant(subject: string, query: string, checker: (string, Value) -> string,
                    show: Value -> string, items: seq<Value>): (r: seq<Value>)
    ensures |r| <= |items|
  {
    if |items| == 0 then []
    else
      var init := items[..|items| - 1];
      var last := items[|items| - 1];
      var rest := Relevant(subject, query, checker, show, init);
      if Keep(subject, query, checker, show, last) then rest + [last] else rest
  }

  /** When the checker approves every item the input comes back unchanged; when
      it approves none the result is empty. */
  lemma {:induction false} RelevantAllOrNone(subject: string, query: string, checker: (string, Value) -> string,
                                             show: Value -> string, items: seq<Value>)
    ensures (forall k :: 0 <= k < |items| ==> Keep(subject, query, checker, show, items[k])) ==>
      Relevant(subject, query, checker, show, items) == items
    ensures (forall k :: 0 <= k < |items| ==> !Keep(subject, query, checker, show, items[k])) ==>
      Relevant(subject, query, checker, show, items) == []
  {
    if |items| > 0 {
      var init := items[..|items| - 1];
      RelevantAllOrNone(subject, query, checker, show, init);
      assert items == init + [items[|items| - 1]];
    }
  }

  /** An item is kept exactly when it is in the input and the checker says yes. */
  lemma {:induction false} RelevantMembers(subject: string, query: string,
                                           checker: (string, Value) -> string,
                                           show: Value -> string, items: seq<Value>)
    ensures forall x :: x in Relevant(subject, query, checker, show, items) <==>
      x in items && Keep(subject, query, checker, show, x)
  {
    if |items| > 0 {
      var init := items[..|items| - 1];
      assert items == init + [items[|items| - 1]];
      RelevantMembers(subject, query, checker, show, init);
    }
  }

  /** The kept items form an order-preserving subsequence of the input. */
  lemma {:induction false} RelevantIsSubsequence(subject: string, query: string,
                                                 checker: (string, Value) -> string,
                                                 show: Value -> string, items: seq<Value>)
    ensures IsSubsequence(Relevant(subject, query, checker, show, items), items)
  {
    if |items| > 0 {
      var init := items[..|items| - 1];
      var last := items[|items| - 1];
      var rest := Relevant(subject, query, checker, show, init);
      RelevantIsSubsequence(subject, query, checker, show, init);
      if Keep(subject, query, checker, show, last) {
        var r := rest + [last];
        assert r[..|r| - 1] == rest;
      } else {
        SubsequenceExtend(rest, init, last);
        assert init + [last] == items;
      }
    }
  }

  /** One more item extends the kept prefix by that item exactly when it is kept. */
  lemma RelevantStep(subject: string, query: string, checker: (string, Value) -> string,
                     show: Value -> string, items: seq<Value>, i: nat)
    requires i < |items|
    ensures Relevant(subject, query, checker, show, items[..i + 1]) ==
            Relevant(subject, query, checker, show, items[..i]) +
            (if Keep(subject, query, checker, show, items[i]) then [items[i]] else [])
  {
    assert items[..i + 1][..i] == items[..i] && items[..i + 1][i] == items[i];
  }

  /** `_filter_relevant`: asks the checker once per item, in order, with the
      same question and the item's context, and keeps the items judged
      relevant. `asked` records the checker's inputs. */
  method FilterRelevant(subject: string, items: seq<Value>, query: string,
                        checker: (string, Value) -> string, show: Value -> string)
    returns (filtered: seq<Value>, asked: seq<(string, Value)>)
    ensures filtered == Relevant(subject, query, checker, show, items)
    ensures |asked| == |items|
    ensures forall k :: 0 <= k < |items| ==> asked[k] == (Question(subject, query), Context(items[k], show))
  {
    filtered := [];
    asked := [];
    for i := 0 to |items|
      invariant filtered == Relevant(subject, query, checker, show, items[..i])
      invariant |asked| == i
      invariant forall k :: 0 <= k < i ==> asked[k] == (Question(subject, query), Context(items[k], show))
    {
      var r := items[i];
      var context := Context(r, show);
      var question := Question(subject, query);
      asked := asked + [(question, context)];
      var score := checker(question, context);
      RelevantStep(subject, query, checker, show, items, i);
      if IsYes(score) {
        filtered := filtered + [r];
      }
    }
    assert items[..|items|] == items;
  }

  // ---------------------------------------------------------------- market data

  /** The three search result lists, in provider order. */
  datatype MarketSearch = MarketSearch(trends: seq<Dict>, market: seq<Dict>, regulation: seq<Dict>)

  /** The text each filter call puts before its query (the `str()` of the
      first argument of `_filter_relevant`). */
  datatype Subjects = Subjects(trends: string, market: string, regulation: string)

  /** One evidence entry: the title (or the default claim), the URL (None
      when absent) and the access date. */
  function EvidenceEntry(result: Dict, today: string): (r: Value)
    ensures r.Obj? && r.fields.Keys == {"claim", "source_url", "accessed_at"}
    ensures Truthy(Get(result, "title")) ==> r.fields["claim"] == result["title"]
    ensures !Truthy(Get(result, "title")) ==> r.fields["claim"] == Str(DefaultClaim)
    ensures r.fields["source_url"] == Get(result, "url")
    ensures r.fields["accessed_at"] == Str(today)
  {
    Obj(map[
      "claim" := Or(Get(result, "title"), Str(DefaultClaim)),
      "source_url" := Get(result, "url"),
      "accessed_at" := Str(today)
    ])
  }

  function Evidence(results: seq<Dict>, today: string): (r: seq<Value>)
    ensures |r| == |results|
    ensures forall k :: 0 <= k < |results| ==> r[k] == EvidenceEntry(results[k], today)
  {
    seq(|results|, k requires 0 <= k < |results| => EvidenceEntry(results[k], today))
  }

  function AsValues(results: seq<Dict>): (r: seq<Value>)
    ensures |r| == |results|
    ensures forall k :: 0 <= k < |results| ==> r[k] == Obj(results[k])
  {
    seq(|results|, k requires 0 <= k < |results| => Obj(results[k]))
  }

  /** `[r.get(key) for r in items]` over dict items. */
  function Project(items: seq<Value>, key: string): (r: seq<Value>)
    requires forall k :: 0 <= k < |items| ==> items[k].Obj?
    ensures |r| == |items|
    ensures forall k :: 0 <= k < |items| ==> r[k] == Get(items[k].fields, key)
  {
    seq(|items|, k requires 0 <= k < |items| => Get(items[k].fields, key))
  }

  /** The dict results the checker keeps, as values. */
  function Kept(subject: string, query: string, checker: (string, Value) -> string,
                show: Value -> string, results: seq<Dict>): (r: seq<Value>)
    ensures forall k :: 0 <= k < |r| ==> r[k].Obj? && r[k].fields in results
    ensures |r| <= |results|
  {
    var r := Relevant(subject, query, checker, show, AsValues(results));
    RelevantMembers(subject, query, checker, show, AsValues(results));
    assert forall k :: 0 <= k < |r| ==> r[k] in AsValues(results);
    r
  }

  const TrendsQuery: string := "헬스케어 산업 동향"
  const MarketQuery: string := "시장 규모 성장률"
  const RegulationQuery: string := "의료 규제"

  /** `generate_market_data`: evidence from the unfiltered trend and regulation
      results (market-size results excluded), then titles of the relevant
      trend results, contents of the relevant market results and titles of
      the relevant regulation results. */
  function GenerateMarketData(search: MarketSearch, subjects: Subjects,
                              checker: (string, Value) -> string, today: string,
                              show: Value -> string): (r: Dict)
    ensures r.Keys == MarketKeys
    ensures r["evidence"] == List(Evidence(search.trends + search.regulation, today))
    ensures r["industry_trends"] ==
      List(Project(Kept(subjects.trends, TrendsQuery, checker, show, search.trends), "title"))
    ensures r["market_size"] ==
      List(Project(Kept(subjects.market, MarketQuery, checker, show, search.market), "content"))
    ensures r["regulatory_barriers"] ==
      List(Project(Kept(subjects.regulation, RegulationQuery, checker, show, search.regulation), "title"))
  {
    var evidence := Evidence(search.trends + search.regulation, today);
    var trends := Kept(subjects.trends, TrendsQuery, checker, show, search.trends);
    var market := Kept(subjects.market, MarketQuery, checker, show, search.market);
    var regulation := Kept(subjects.regulation, RegulationQuery, checker, show, search.regulation);
    map[
      "industry_trends" := List(Project(trends, "title")),
      "market_size" := List(Project(market, "content")),
      "regulatory_barriers" := List(Project(regulation, "title")),
      "evidence" := List(evidence)
    ]
  }

  /** Evidence lists the trend results first, then the regulation results,
      each with the same access date; relevance plays no part in it. */
  lemma EvidenceOrder(search: MarketSearch, today: string)
    ensures Evidence(search.trends + search.regulation, today)
         == Evidence(search.trends, today) + Evidence(search.regulation, today)
    ensures forall k :: 0 <= k < |search.trends| + |search.regulation| ==>
      var e := Evidence(search.trends + search.regulation, today)[k];
      e.Obj? && e.fields["accessed_at"] == Str(today)
  {
    var all := search.trends + search.regulation;
    var e := Evidence(all, today);
    var split := Evidence(search.trends, today) + Evidence(search.regulation, today);
    assert forall k :: 0 <= k < |all| ==> e[k] == split[k] by {
      forall k | 0 <= k < |all| ensures e[k] == split[k] {
        if k >= |search.trends| {
          assert all[k] == search.regulation[k - |search.trends|];
        }
      }
    }
  }

  /** One company's output record: its dict updated with its market data, so
      the four market keys are set and every other key is kept. */
  function MarketEntry(company: Dict, searchFor: Dict -> MarketSearch, subjectsFor: Dict -> Subjects,
                       checker: (string, Value) -> string, today: string, show: Value -> string): (r: Dict)
    ensures r.Keys == company.Keys + MarketKeys
    ensures forall key :: key in company && key !in MarketKeys ==> r[key] == company[key]
    ensures forall key :: key in MarketKeys ==>
      r[key] == GenerateMarketData(searchFor(company), subjectsFor(company), checker, today, show)[key]
  {
    Update(company, GenerateMarketData(searchFor(company), subjectsFor(company), checker, today, show))
  }

  /** `run`: every company, in order, updated with its market data. */
  method Run(companies: seq<Dict>, searchFor: Dict -> MarketSearch, subjectsFor: Dict -> Subjects,
             checker: (string, Value) -> string, today: string, show: Value -> string)
    returns (results: seq<Dict>)
    ensures |results| == |companies|
    ensures forall k :: 0 <= k < |companies| ==>
      results[k] == MarketEntry(companies[k], searchFor, subjectsFor, checker, today, show)
  {
    results := UpdateEach(companies, MarketEntryOf(searchFor, subjectsFor, checker, today, show));
  }

  /** `MarketEntry` as a function of the company. */
  function MarketEntryOf(searchFor: Dict -> MarketSearch, subjectsFor: Dict -> Subjects,
                         checker: (string, Value) -> string, today: string,
                         show: Value -> string): Dict -> Dict
  {
    company => MarketEntry(company, searchFor, subjectsFor, checker, today, show)
  }

  // ---------------------------------------------------------------- file names

  /** The file slug: the name lower-cased with every space replaced by '-'. */
  function Slug(name: string): (r: string)
    ensures |r| == |name|
    ensures forall i :: 0 <= i < |name| ==> r[i] == (if name[i] == ' ' then '-' else LowerChar(name[i]))
    ensures forall i :: 0 <= i < |r| ==> r[i] != ' '
  {
    var lowered := Lower(name);
    ReplaceCharPointwise(lowered, ' ', '-');
    ReplaceAll(lowered, " ", "-")
  }

  /** The name a company's results are saved under: its `company_name` or,
      when that is missing or empty, "unknown-" and six hex digits of a fresh
      identifier (`uniqueHex`). A non-string name cannot be lower-cased. */
  function ResultFileName(company: Dict, uniqueHex: string): (r: Result<string>)
    ensures Truthy(Get(company, "company_name")) && company["company_name"].Str? ==>
      r == Success(Slug(company["company_name"].s) + "_result.json")
    ensures !Truthy(Get(company, "company_name")) ==>
      r == Success(Slug("unknown-" + Take(uniqueHex, 6)) + "_result.json")
    ensures Truthy(Get(company, "company_name")) && !company["company_name"].Str? ==> r.Failure?
  {
    match Or(Get(company, "company_name"), Str("unknown-" + Take(uniqueHex, 6)))
    case Str(name) => Success(Slug(name) + "_result.json")
    case _ => Failure("object has no attribute 'lower'")
  }

  /** `save_results` as written: the output directory attribute is never
      assigned in the constructor, so the first company's path raises. */
  function SaveResultsAsWritten(results: seq<Dict>, uniqueHex: seq<string>): (r: Result<seq<string>>)
    requires |uniqueHex| == |results|
    ensures |results| > 0 ==> r.Failure?
    ensures |results| == 0 ==> r == Success([])
  {
    if |results| == 0 then Success([])
    else match ResultFileName(results[0], uniqueHex[0])
      case Failure(e) => Failure(e)
      case Success(_) => Failure("'MarketEvalAgent' object has no attribute 'outdir'")
  }

  /** `save_results` with the output directory set: the paths written, one per
      company in order, each the result-file name joined onto `outdir`. */
  function SaveResults(results: seq<Dict>, outdir: string, uniqueHex: seq<string>): (r: Result<seq<string>>)
    requires |uniqueHex| == |results|
    ensures r.Success? <==> forall k :: 0 <= k < |results| ==> ResultFileName(results[k], uniqueHex[k]).Success?
    ensures r.Success? ==> |r.value| == |results| && forall k :: 0 <= k < |results| ==>
      r.value[k] == PathJoin(outdir, ResultFileName(results[k], uniqueHex[k]).value)
  {
    if |results| == 0 then Success([])
    else match ResultFileName(results[0], uniqueHex[0])
      case Failure(e) => Failure(e)
      case Success(file) =>
        match SaveResults(results[1..], outdir, uniqueHex[1..])
        case Failure(e) => Failure(e)
        case Success(rest) => Success([PathJoin(outdir, file)] + rest)
  }
}
