# Startup-investment pipeline: the deterministic glue, in Dafny

The pipeline evaluates health-care start-ups in stages. Each stage is an LLM
agent that reads and writes company records:

1. exploration: a company profile built from a vector store and web search;
2. technology summary;
3. market evaluation;
4. competitor analysis;
5. an investment decision;
6. a report.

The agents, the search providers and the vector database are external
services. This project models everything around them:

- how the answers are cleaned, parsed and defaulted;
- how records are merged;
- how batches carry on past failures;
- how search hits are rendered;
- how documents are tagged with their company;
- the shape of the workflow graph.

Every external call is a function-typed parameter, so each property holds for
whatever that service returns.

Modules (one per source file, plus three shared ones):

- `Wrappers`: `Option` and `Result`. A `Failure` stands for a Python exception
  that escapes.
- `Values`: Python values as a datatype; `dict.update` as right-biased map
  union.
- `Text`: string helpers with their own contracts.
- `InvestmentStateModel`: the pydantic state record and its defaults.
- `ExplorerAgent`, `CompetitorAgent`, `MarketEvalAgent`, `TotalAgentGraph`,
  `InvestmentAgent`, `TechSummaryAgent`, `VectorStore` (the PDF ingestion
  utility) and `BatchDriver` (the `main` entry point).

The main results:

- `rag_search` answers "부족" exactly when nothing is retrieved or the only
  document retrieved reads "부족".
- `web_search` answers "부족" on a client error, on no results, on a non-text
  content, or when the only result's content reads "부족". This is an exact
  if-and-only-if.
- Cleaning the explorer's answer leaves no code fence.
- The competitor parser takes the leftmost-greedy `{…}` span, and falls back
  to a placeholder exactly when there is none or it does not parse.
- The competitor search text starts with the error prefix exactly when the
  search raised.
- The relevance filter:
  - asks the checker once per item, in order;
  - keeps exactly the items judged relevant;
  - keeps them as an order-preserving subsequence of the input.
- Market evidence lists the trend results, then the regulation results,
  whatever the relevance filter keeps.
- Every merge step keeps each key its overlay does not set. The market and
  technology stages set exactly their own keys. The competitor stage's overlay
  is whatever JSON object the answer parsed to, or the fixed failure record.
- The workflow graph gives each of its six nodes exactly one outgoing edge and
  runs them once each, in chain order, ending at END.
- Chunk `c` of PDF `p` is found at its offset in the vector-store input, with
  the text of that split and the company name derived from the file name.
- The batch entry point attempts every company, whatever the stage does with
  earlier ones. Only a non-dict entry stops it.

## Model

| member | source | states |
|---|---|---|
| ExplorerAgent.AvailableCompanies | agents/explorer_agent.py:42-50 | no docstore gives []; an unhashable company value raises; otherwise each company value found in the metadata appears exactly once |
| ExplorerAgent.CompanyValues | agents/explorer_agent.py:46-49 | a value is collected exactly when some document's metadata carries it under "company" |
| ExplorerAgent.Dedup | agents/explorer_agent.py:45-50 | the set conversion keeps the same members with no repeats |
| ExplorerAgent.CleanFences | agents/explorer_agent.py:94 | after stripping and removing "```json" and then "```", no code fence is left in the text handed to the JSON parser; an answer with no backtick at all is only stripped |
| ExplorerAgent.FencedAnswer | agents/explorer_agent.py:94 | a backtick-free JSON body wrapped as "```json" + body + "```" is handed to the parser as exactly the body |
| ExplorerAgent.RawOutput | agents/explorer_agent.py:92-93 | a failed agent call stays a failure; a dict response gives its "output" entry ("" when absent), and a non-text entry fails at `.strip()`; any other response gives its `str()` |
| ExplorerAgent.ParsedOutput | agents/explorer_agent.py:91-98 | a failed call, a failed text extraction, or an answer that does not parse leaves `parsed` as the empty dict; an answer that parses gives the parsed value as it is |
| ExplorerAgent.Field | agents/explorer_agent.py:101-108 | `parsed.get(key, "")`: the parsed value under the key, or "" when the key is absent |
| ExplorerAgent.BuildState | agents/explorer_agent.py:101-108 | validation succeeds exactly when the name and the four text fields are strings and investments is a string, a list of dicts or a dict; missing keys become ""; fields other than the six profile fields keep their defaults; on success the investments field is the conversion of the parsed "investments" value |
| ExplorerAgent.EmptyProfile | agents/explorer_agent.py:96-108 | the record a failed analysis yields: only the company name is set |
| ExplorerAgent.AnalyzeSingleCompanyAsWritten | agents/explorer_agent.py:91-108 | an object answer gives the validated record of its fields; an empty parse gives the empty profile; a parsed answer that is not a JSON object raises, because `parsed.get` is outside the try |
| ExplorerAgent.NonObjectAnswerRaises | agents/explorer_agent.py:95-103 | an agent answer of "[]" parses, and the analysis as written then raises |
| ExplorerAgent.AnalyzeSingleCompany | agents/explorer_agent.py:91-108 | every failure path yields the empty profile; an object answer gives what the code as written gives; the record is named after the company |
| ExplorerAgent.CollectAll | agents/explorer_agent.py:119-124 | the loop succeeds exactly when every company's analysis succeeds, and returns the records in order |
| ExplorerAgent.AnalyzeEach | agents/explorer_agent.py:120-122 | entry k is the analysis of company k, in list order |
| ExplorerAgent.RunWith | agents/explorer_agent.py:113-124 | no companies give []; a discovery failure propagates; otherwise the run succeeds exactly when every analysis does, with record k the analysis of company k |
| ExplorerAgent.Run | agents/explorer_agent.py:113-124 | with the analysis as written: no companies give []; discovery failure propagates; the run succeeds exactly when every company's analysis succeeds, and record k is company k's record, named after it |
| ExplorerAgent.RunCorrected | agents/explorer_agent.py:113-124 | the same loop over the corrected analysis: it succeeds exactly when every corrected analysis does, record k being company k's |
| ExplorerAgent.RunsAgreeOnObjectAnswers | agents/explorer_agent.py:91-124 | when every answer parses to a JSON object, the run as written and the corrected run give the same result |
| ExplorerAgent.OneTaggedDocument | agents/explorer_agent.py:42-50 | a store whose one document is tagged "Acme" lists exactly that company |
| ExplorerAgent.ListAnswerAnalyses | agents/explorer_agent.py:91-108 | an answer parsing to `[]` makes the analysis as written raise, while the corrected one gives the empty profile |
| ExplorerAgent.RunOnListAnswer | agents/explorer_agent.py:91-124 | with one company whose answer parses to `[]`, `run` as written raises and the corrected run returns that company's empty profile |
| ExplorerAgent.Contents | agents/explorer_agent.py:136 | the page contents of the retrieved documents, in retrieval order |
| ExplorerAgent.RagSearch | agents/explorer_agent.py:129-136 | no documents give "부족"; otherwise the contents joined with blank lines |
| ExplorerAgent.JoinIsInsufficient | agents/explorer_agent.py:134-136 | joined text equals "부족" exactly when there was a single piece "부족" |
| ExplorerAgent.RagSearchInsufficient | agents/explorer_agent.py:129-136 | the answer is "부족" exactly when nothing is retrieved or the single document retrieved reads "부족" |
| ExplorerAgent.WebContents | agents/explorer_agent.py:141 | each result's "content", or "" when absent |
| ExplorerAgent.Texts | agents/explorer_agent.py:142 | the contents as strings, in result order |
| ExplorerAgent.WebSearch | agents/explorer_agent.py:138-145 | a client error, no results or non-text content give "부족"; otherwise the contents joined by newlines |
| ExplorerAgent.WebSearchInsufficient | agents/explorer_agent.py:138-145 | "부족" exactly on an error, on no results, on non-text content, or when the single result reads "부족" |
| CompetitorAgent.Placeholder | agents/competitor_agent.py:150-159 | the eight competitor keys: the given competitor and profile, "N/A" for the five other text fields, no reference URLs |
| CompetitorAgent.Fallback | agents/competitor_agent.py:150-170 | the parser's fallback: exactly the eight competitor keys, main_competitors "N/A", the whole answer as the profile, "N/A" for the five fillers, no reference URLs |
| CompetitorAgent.FailureRecord | agents/competitor_agent.py:217-227 | the record of a company whose analysis raised: exactly the eight competitor keys, main_competitors "분석 실패", the error text as the profile, "N/A" fillers, no reference URLs |
| CompetitorAgent.FirstIndexOf | agents/competitor_agent.py:145 | the first occurrence of a character, or none |
| CompetitorAgent.LastIndexOf | agents/competitor_agent.py:145 | the last occurrence of a character, or none |
| CompetitorAgent.JsonSpanBounds | agents/competitor_agent.py:145 | the regex matches exactly when some '{' precedes some '}'; the bounds are the leftmost start and the longest end |
| CompetitorAgent.ExtractJsonSpan | agents/competitor_agent.py:145-147 | the matched text is the leftmost-greedy span, beginning with '{' and ending with '}' |
| CompetitorAgent.ParseCompetitorAnalysis | agents/competitor_agent.py:143-170 | no match gives the fallback, with the whole answer as the profile; otherwise the parse of the leftmost-greedy span, or the fallback when it does not parse; never raises |
| CompetitorAgent.Overlay | agents/competitor_agent.py:203-228 | an analysis that returns gives the parsed competitor record; one that raises gives the eight competitor keys with "분석 실패" and the error text |
| CompetitorAgent.Entry | agents/competitor_agent.py:209-210 | the copy of the company has the union of keys: overlay values win, every other key keeps its value |
| CompetitorAgent.HitField | agents/competitor_agent.py:45-48 | `str(result.get(key, "N/A"))`: "N/A" when the key is absent, a text value as it is, any other value's `str()` |
| CompetitorAgent.AnalyzeMultipleCompanies | agents/competitor_agent.py:192-231 | one output per input company, in order, each the company updated with its parsed analysis, or with the failure record when the analysis raised |
| CompetitorAgent.BatchEntryShape | agents/competitor_agent.py:209-228 | keys the overlay does not set keep their values; a failed company carries "분석 실패", the error text, "N/A" fillers and no URLs |
| CompetitorAgent.HitBlock | agents/competitor_agent.py:45-53 | four lines: the numbered title line; "   URL: " and the hit's url; "   내용: ", the first 200 characters of the content (all of it when shorter) and "..."; "   점수: " and the hit's score, each field "N/A" when absent |
| CompetitorAgent.HitLines | agents/competitor_agent.py:44-53 | four lines per hit, numbered consecutively in provider order |
| CompetitorAgent.ResultLines | agents/competitor_agent.py:37-53 | the summary line exactly when the answer is truthy, then the header, then each hit's block numbered from 1 |
| CompetitorAgent.SearchCompetitor | agents/competitor_agent.py:24-59 | the lines joined by newlines, or the error prefix followed by the error text |
| CompetitorAgent.SearchCompetitorPrefixes | agents/competitor_agent.py:39-59 | the text starts with the error prefix exactly when the search raised, and with the summary prefix exactly when the answer is truthy |
| MarketEvalAgent.Context | agents/market_eval_agent.py:83-87 | a dict's snippet, else its title, else ""; any other item's str() |
| MarketEvalAgent.QuestionShape | agents/market_eval_agent.py:89-91 | the checker's question is the subject, one space and the query, and nothing else |
| MarketEvalAgent.IsYesFirstChar | agents/market_eval_agent.py:93 | a score counts as yes exactly when its first character is 'y' or 'Y' |
| MarketEvalAgent.Relevant | agents/market_eval_agent.py:78-96 | the reference filter: never longer than its input |
| MarketEvalAgent.RelevantAllOrNone | agents/market_eval_agent.py:78-96 | when every item is judged relevant the input comes back whole; when none is, the result is empty |
| MarketEvalAgent.RelevantMembers | agents/market_eval_agent.py:78-96 | an item is kept exactly when it is in the input and the checker says yes for it |
| MarketEvalAgent.RelevantIsSubsequence | agents/market_eval_agent.py:78-96 | the kept items are an order-preserving subsequence of the input |
| MarketEvalAgent.FilterRelevant | agents/market_eval_agent.py:78-96 | the filtered list equals the reference relevant subsequence; the checker is asked once per item, in order, with the same question and that item's context |
| MarketEvalAgent.EvidenceEntry | agents/market_eval_agent.py:128-132 | claim is the title or "검색 결과"; source_url is the URL or None; accessed_at is today |
| MarketEvalAgent.Evidence | agents/market_eval_agent.py:125-132 | one entry per result, in order |
| MarketEvalAgent.EvidenceOrder | agents/market_eval_agent.py:124-132 | trend evidence first, then regulation evidence, all dated today; market-size results and relevance play no part |
| MarketEvalAgent.Project | agents/market_eval_agent.py:139-143 | one value per kept result: its entry under the key, or None |
| MarketEvalAgent.Kept | agents/market_eval_agent.py:134-136 | every kept result is one of the search results, and there are no more of them |
| MarketEvalAgent.GenerateMarketData | agents/market_eval_agent.py:98-146 | exactly the four schema keys: the titles of relevant trends, the contents of relevant market results, the titles of relevant regulations, and the evidence |
| MarketEvalAgent.MarketEntry | agents/market_eval_agent.py:154-155 | the company's record with the four market keys set from its market data and every other key kept |
| Values.UpdateEach | agents/market_eval_agent.py:153-157 | the per-record loop of both batch stages: one output per record, in order, each that record's entry |
| MarketEvalAgent.Run | agents/market_eval_agent.py:148-157 | one record per company in order, each that company's market entry |
| MarketEvalAgent.Slug | agents/market_eval_agent.py:165 | same length; each character lower-cased, with spaces turned into '-'; no space remains |
| MarketEvalAgent.ResultFileName | agents/market_eval_agent.py:164-166 | "<slug>_result.json" of the name, or of "unknown-" plus six hex digits when the name is missing or empty; a non-string name raises |
| MarketEvalAgent.SaveResultsAsWritten | agents/market_eval_agent.py:159-168 | any non-empty batch raises before writing, because the output directory attribute is never assigned |
| MarketEvalAgent.SaveResults | agents/market_eval_agent.py:159-168 | succeeds exactly when every name is usable; one path per company in order, under the output directory |
| TotalAgentGraph.Successor | agents/total_agent_graph.py:22-27 | the target of some edge leaving the node, or none when no edge leaves it |
| TotalAgentGraph.SuccessorIsFirst | agents/total_agent_graph.py:22-27 | the first edge leaving the node decides the successor; later edges leaving it play no part |
| TotalAgentGraph.SuccessorOfUniqueEdge | agents/total_agent_graph.py:22-27 | with a single edge leaving a node, the successor is that edge's target |
| TotalAgentGraph.Position | agents/total_agent_graph.py:14-19 | each node's place in the chain |
| TotalAgentGraph.EdgesFollowChain | agents/total_agent_graph.py:22-27 | edge k leaves the k-th node and enters the next one; the last enters END |
| TotalAgentGraph.BuildTotalAgentGraph | agents/total_agent_graph.py:9-29 | six distinct nodes, entry ExplorerAgent, exactly one outgoing edge per node, successors in chain order, ReportAgent to END |
| TotalAgentGraph.Execute | agents/total_agent_graph.py:14-29 | a run from the entry visits the six nodes once each, in chain order, and returns the state unchanged, every node function being `lambda s: s` (`Apply`) |
| InvestmentAgent.Run | agents/investment_agent.py:2-8 | recommend exactly when the market evaluation contains "성장", otherwise hold; both inputs passed through |
| TechSummaryAgent.Run | agents/tech_summary_agent.py:2-9 | the three technology keys hold the fixed values; every other key keeps its value |
| TechSummaryAgent.RunIdempotent | agents/tech_summary_agent.py:4-9 | running the stage twice gives the same record as running it once |
| InvestmentStateModel.Default | InvestmentState.py:4-43 | every field at its declared default: empty texts and lists, zero scores, no report path |
| InvestmentStateModel.ToInvestments | InvestmentState.py:11 | accepts a string, a list of dicts or a dict, and nothing else; an accepted list keeps its dicts one for one, in order |
| VectorStore.CompanyNameOf | util_vectorstore.py:37 | the name is the base name's characters up to, not including, its first '.'; it holds no '.'; whatever follows it in the base name starts with '.' |
| VectorStore.CompanyNameWithoutDot | util_vectorstore.py:37 | a base name without a '.' is the company name as a whole |
| VectorStore.Tag | util_vectorstore.py:47-48 | every chunk keeps its text and gets "company" set to the name, other metadata kept |
| VectorStore.PdfChunks | util_vectorstore.py:36-48 | one chunk per split of the loaded pages, in order: chunk k keeps split k's text and carries "company" set to the file's company name |
| VectorStore.PdfChunkTagged | util_vectorstore.py:36-48 | chunk c of one PDF keeps the text of split c and is tagged with the company name of the file |
| VectorStore.ConcatLength | util_vectorstore.py:44-52 | the concatenated per-file lists are as long as the per-file counts add up to |
| VectorStore.TotalOfSameLengths | util_vectorstore.py:44-48 | tagging keeps each file's chunk count, so the counted totals agree |
| VectorStore.ConcatStep | util_vectorstore.py:36-52 | taking one more PDF appends its list and adds its count |
| VectorStore.ConcatPrefixAt | util_vectorstore.py:52 | a chunk of the first m PDFs keeps its position among all the chunks |
| VectorStore.ConcatAt | util_vectorstore.py:36-52 | element c of PDF p's list sits at the count of the PDFs before p plus c |
| VectorStore.AllChunksLength | util_vectorstore.py:44-52 | the documents number exactly the chunks counted |
| VectorStore.ChunkProvenance | util_vectorstore.py:36-52 | chunk c of PDF p sits at p's offset plus c, carries the text of its split and the company name of its file |
| VectorStore.BuildFromPdfs | util_vectorstore.py:16-52 | the documents are every PDF's tagged chunks in file order; the page and chunk totals are their sums |
| BatchDriver.InputData | main.py:56-63 | exactly the six input keys, each copied from the record or "" when absent |
| BatchDriver.DisplayName | main.py:50 | the company name, or "Company_i" when absent |
| BatchDriver.FirstNonDict | main.py:49-50 | the first entry that is not a dict, if any |
| BatchDriver.FirstNonDictAt | main.py:49-50 | an entry that is not a dict after only dicts is the first non-dict |
| BatchDriver.RunCompanies | main.py:48-75 | companies are attempted in order, whatever the stage does with earlier ones; the run completes exactly when every entry is a dict, and otherwise aborts at the first non-dict with every earlier company attempted |
| BatchDriver.RunMain | main.py:27-81 | a missing checkpoint returns early; an unreadable one aborts before any company; a list is run as `RunCompanies` runs it; an empty JSON string or object completes with no company, any other non-list value aborts before any company |
| Values.Update | agents/competitor_agent.py:209-210 | `dict.update`: keys are the union; the update's values win; other keys keep their values |
| Values.UpdateIdempotent | agents/tech_summary_agent.py:4-8 | applying the same update twice equals applying it once |
| Values.PyStr | agents/competitor_agent.py:40 | str() of a string is the string itself |
| Values.Truthy | agents/market_eval_agent.py:84-85 | Python truthiness: None, "", an empty list or dict, and a false scalar are falsy |
| Values.Get | agents/market_eval_agent.py:84-85 | `d.get(key)`: the value under the key, or None when it is absent |
| Values.GetOr | main.py:50-63 | `d.get(key, default)`: the value under the key, or the default when it is absent |
| Values.Or | agents/market_eval_agent.py:84-85 | `a or b`: the first operand when it is truthy, otherwise the second |
| Values.OrTruthy | agents/market_eval_agent.py:84-85 | `a or b` is truthy exactly when either operand is |
| Values.Hashable | agents/explorer_agent.py:45-49 | the values `set.add` accepts: anything but a list or a dict |
| Text.FindIffContains | agents/investment_agent.py:3 | a substring search succeeds exactly when the text contains the pattern |
| Text.Find | agents/investment_agent.py:3 | the first position at or after the start where the pattern occurs, or none when it occurs nowhere from there |
| Text.ReplaceAtFind | agents/explorer_agent.py:94 | `s.replace(pat, rep)` is the text before the first occurrence `find` reports, then rep, then the replacement of the rest |
| Text.FirstOccurrenceSplit | agents/explorer_agent.py:94 | the replacement scan copies everything before the first occurrence, replaces it, and continues after it |
| Text.NoBacktickNoFence | agents/explorer_agent.py:94 | a text without a backtick contains neither "```json" nor "```" |
| Text.OpeningFenceRemoved | agents/explorer_agent.py:94 | removing "```json" from a fenced backtick-free body leaves the body and the closing "```" |
| Text.DropClosingFence | agents/explorer_agent.py:94 | removing "```" from a backtick-free body followed by "```" gives the body back |
| Text.LeadingSpaces | agents/explorer_agent.py:94 | the count of whitespace characters the text starts with: all of them whitespace, the next one not |
| Text.TrimEnd | agents/explorer_agent.py:94 | the text without its trailing whitespace: a prefix, ending in a non-space when non-empty, followed only by whitespace |
| Text.Strip | agents/explorer_agent.py:94 | the text from the end of the leading whitespace, followed only by whitespace, with no whitespace at either end |
| Text.StripIdempotent | agents/explorer_agent.py:94 | stripping a stripped text changes nothing |
| Text.ReplaceAll | agents/explorer_agent.py:94 | a pattern replaced by itself leaves the text unchanged |
| Text.ReplaceAbsent | agents/explorer_agent.py:94 | a text without the pattern comes back unchanged |
| Text.RemovalLeavesNoFence | agents/explorer_agent.py:94 | removing every "```" leaves none |
| Text.ReplaceCharPointwise | agents/market_eval_agent.py:165 | replacing a single character changes exactly its occurrences |
| Text.Join | agents/explorer_agent.py:136 | no parts give ""; one part gives itself; the result starts with the first part |
| Text.JoinLength | agents/explorer_agent.py:136 | the result is as long as the parts plus one separator between neighbours |
| Text.JoinAt | agents/explorer_agent.py:136 | part k starts after the lengths of the parts before it plus k separators, and a separator follows it unless it is the last |
| Text.JoinPartAt | agents/explorer_agent.py:136 | part k occurs in the joined text at its start offset: the parts before it, each followed by one separator |
| Text.JoinSeparatorAt | agents/explorer_agent.py:136 | every part but the last is followed directly by the separator |
| Text.PartStartValue | agents/explorer_agent.py:136 | the start offset of part k is the lengths of the k parts before it plus k separators |
| Text.JoinHasSeparator | agents/explorer_agent.py:136 | joining two or more pieces puts the separator in the result |
| Text.BasenameStart | util_vectorstore.py:37 | the last component starts after a '/' (or at the start) and holds no '/' |
| Text.Basename | util_vectorstore.py:37 | the part of the path after its last '/': a suffix of the path with no '/', preceded by '/' when shorter than the path |
| Text.PathJoin | agents/market_eval_agent.py:166 | an absolute file name replaces the directory; an empty directory gives the file name; a directory ending in '/' is followed directly by the file name; any other gets one '/' before it |
| Text.Lower | agents/market_eval_agent.py:165 | same length; each ASCII capital becomes its small letter, every other character stays |
| Text.Take | agents/competitor_agent.py:47 | a prefix of the text no longer than the limit: the whole text when it is short enough, exactly the limit's worth of characters otherwise |
| Text.BeforeFirst | util_vectorstore.py:37 | the prefix before the first occurrence of the character, or the whole text |
| Text.NatToString | main.py:50 | a non-empty run of decimal digits with no leading zero |
| Text.NatToStringRoundTrip | main.py:50 | the decimal rendering of a number reads back as that number |

## Left out

- Agent executors, LLMs, prompts, the Tavily client, the FAISS retriever, the
  relevance checker, the PDF loader and the text splitter are external
  services. They are function parameters, so the model proves nothing about
  their answers.
- `json.loads` and `json.load` are a `parse` parameter. The competitor parser
  assumes that a text beginning with '{' parses, if at all, to an object.
- `str()` of containers and numbers (Python `repr`) is a `show` parameter.
  Only `str()` of a string is fixed.
- Outside the model:
  - file I/O: saving JSON, PNG export of the graph and `save_local`;
  - `print` output, `load_dotenv`, the API-key checks and the Windows stdout
    rewrapping;
  - the `__main__` blocks and the hard-coded test input;
  - the report stage.
- `datetime.now()` and `uuid4()` are parameters: `today` and `uniqueHex`.
- The query texts sent to the search providers, and the strings of the tuples
  and sets placed in the checker's question, are parameters (`searchFor` and
  `Subjects`). Their rendering needs Python's `repr`.
- The market-evaluation constructor uses `GroundednessChecker` and
  `ChatOpenAI`, whose imports are commented out, so constructing the agent
  raises `NameError`. The model takes the checker as a parameter and describes
  the agent's methods.
- `MarketEvalAgent.Slug`: lower-cases ASCII letters only. Python's
  `str.lower` also maps other scripts. Hangul, which the names use, has no
  case.
- `Text.Lower`: lower-cases ASCII letters only; Python's `str.lower` also maps
  other scripts.
- `ExplorerAgent.AvailableCompanies`: `list(set(...))` has no defined order.
  The model keeps first-occurrence order, and its contract states only
  membership and the absence of duplicates.
- `MarketEvalAgent.Run`: a Tavily search or relevance-checker call that
  raises (agents/market_eval_agent.py:89 and 106-121) is not caught and ends
  `run`. Those services are total function parameters here, so the model has
  no such failure.
- `ExplorerAgent.RagSearch`: a retriever that raises
  (agents/explorer_agent.py:133) is a total function parameter here.
- `ExplorerAgent.AnalyzeSingleCompanyAsWritten`: `hub.pull` and the agent
  construction (agents/explorer_agent.py:72-74) run outside the `try`, so
  their failures would end the analysis. They are not modelled; only the
  executor's answer is a parameter.
- `MarketEvalAgent.Run` and `TechSummaryAgent.Run`: the source updates the
  caller's dicts in place and returns those same objects
  (agents/market_eval_agent.py:155, agents/tech_summary_agent.py:4-9). Dicts
  are values here, so the model returns new records and has no aliasing.
- `Text.Basename`: POSIX paths only. The Windows separator `\` of
  `os.path.basename` is not modelled.
- `Text.PathJoin`: POSIX paths only. On Windows `os.path.join` inserts `\`
  and treats drive letters specially; neither is modelled.
- Dictionary key order and JSON indentation are not modelled. Dicts are maps.
- `float` fields of the state record are Dafny `real`s. No arithmetic is done
  on them.
- `bytes` inputs to `find_competitor` and `search_competitor`, and their
  UTF-8 decoding, are not modelled. Strings are sequences of characters.
- `CompetitorAgent.AnalyzeMultipleCompanies`: the agent's answer is taken to
  be text. A non-text `output` would make `re.search` raise inside the
  parser's handler, giving the fallback with that value as the profile.
- `BatchDriver.RunMain`: the error texts of an aborted run are fixed
  stand-ins for Python's messages. The stage is any function from a record to
  a result. In `main.py` it is the technology-summary stub, which never fails.
- `ExplorerAgent.BuildState`: takes pydantic validation to be strict: a non-string value for
  a text field is rejected rather than coerced.
- The state record's `market_share` field and the competitor prompt's
  "MarketShare" key differ. The model keeps both spellings as written.
- The explorer answer's schema in the prompt is not enforced. Only the
  `.get` defaults are.
- The graph's `MemorySaver` checkpointer and the compile step are not
  modelled. A run of the compiled graph is modelled by `Execute`.
- The code has no scoring rubric, decision threshold, cap on the number of
  companies, confidence scorer or retry logic of its own, so the model has
  none either. The investment decision is the substring test of the stub.

## Findings

| source | as written | input that shows it | evidently intended | confidence | as-written member | corrected member |
|---|---|---|---|---|---|---|
| agents/explorer_agent.py:91-108 | `parsed.get(...)` runs after the `try`, so an answer that parses to a JSON value other than an object raises `AttributeError` out of `analyze_single_company` and ends `run` (`ExplorerAgent.RunOnListAnswer`) | an agent answer of `[]` | any answer that does not yield an object gives the empty profile, as a failed parse does | not executed | ExplorerAgent.AnalyzeSingleCompanyAsWritten | ExplorerAgent.AnalyzeSingleCompany |
| agents/market_eval_agent.py:159-168 | the constructor never assigns `self.outdir` (lines 66-67 are commented out), so `save_results` raises on its first company | any non-empty result list | the files go under the configured output directory | not executed | MarketEvalAgent.SaveResultsAsWritten | MarketEvalAgent.SaveResults |
