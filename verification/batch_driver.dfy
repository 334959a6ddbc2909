/** The batch entry point: load the checkpoint, then run the technology
    stage on a fixed projection of every company record, catching each
    company's failure and carrying on with the next. */
module BatchDriver {
  import opened Wrappers
  import opened Values
  import opened Text

  /** The keys of the per-company stage input. */
  const InputKeys: set<string> := {"company_name", "core_tech", "owner", "pros", "patents", "investments"}

  /** The stage input: the six keys, each copied from the record or "" when absent. */
  function InputData(company: Dict): (r: Dict)
    ensures r.Keys == InputKeys
    ensures forall k :: k in InputKeys && k in company ==> r[k] == company[k]
    ensures forall k :: k in InputKeys && k !in company ==> r[k] == Str("")
  {
    map[
      "company_name" := GetOr(company, "company_name", Str("")),
      "core_tech" := GetOr(company, "core_tech", Str("")),
      "owner" := GetOr(company, "owner", Str("")),
      "pros" := GetOr(company, "pros", Str("")),
      "patents" := GetOr(company, "patents", Str("")),
      "investments" := GetOr(company, "investments", Str(""))
    ]
  }

  /** The name shown for the `i`-th company (counting from 1): its
      `company_name`, or "Company_i" when the key is absent. */
  function DisplayName(company: Dict, i: nat): (r: Value)
    ensures "company_name" in company ==> r == company["company_name"]
    ensures "company_name" !in company ==> r == Str("Company_" + NatToString(i))
  {
    GetOr(company, "company_name", Str("Company_" + NatToString(i)))
  }

  /** One company's turn: who it was, what the stage got, what came back. */
  datatype Attempt = Attempt(displayName: Value, input: Dict, outcome: Result<Dict>)

  /** The checkpoint file: absent, unreadable as JSON, or the JSON value it
      holds (a list of records when well formed). */
  datatype Checkpoint = Missing | Unreadable(error: string) | Loaded(top: Value)

  /** How `main` ended: early return on a missing checkpoint, all companies
      attempted, or the outer handler caught an error after some attempts. */
  datatype MainOutcome =
    | NoCheckpoint
    | Completed(attempts: seq<Attempt>)
    | Aborted(attempts: seq<Attempt>, error: string)

  function AttemptFor(company: Dict, i: nat, stage: Dict -> Result<Dict>): Attempt {
    Attempt(DisplayName(company, i), InputData(company), stage(InputData(company)))
  }

  /** Attempt `k` is the `k`-th company's turn, numbered from 1. */
  predicate AttemptsMatch(attempts: seq<Attempt>, companies: seq<Value>, stage: Dict -> Result<Dict>) {
    && |attempts| <= |companies|
    && forall k :: 0 <= k < |attempts| ==>
         companies[k].Obj? && attempts[k] == AttemptFor(companies[k].fields, k + 1, stage)
  }

  /** The index of the first entry that is not a dict, if any. */
  function FirstNonDict(companies: seq<Value>): (r: Option<nat>)
    ensures r.Some? ==> r.value < |companies| && !companies[r.value].Obj?
    ensures r.Some? ==> forall k :: 0 <= k < r.value ==> companies[k].Obj?
    ensures r.None? ==> forall k :: 0 <= k < |companies| ==> companies[k].Obj?
  {
    if |companies| == 0 then None
    else if !companies[0].Obj? then Some(0)
    else match FirstNonDict(companies[1..])
      case None => None
      case Some(k) => Some(k + 1)
  }

  /** The first non-dict entry is the one that every earlier entry precedes as a dict. */
  lemma {:induction false} FirstNonDictAt(companies: seq<Value>, i: nat)
    requires i < |companies| && !companies[i].Obj?
    requires forall k :: 0 <= k < i ==> companies[k].Obj?
    ensures FirstNonDict(companies) == Some(i)
  {
    if i > 0 {
      FirstNonDictAt(companies[1..], i - 1);
    }
  }

  /** The loop of `main` over a list: every company is attempted in order
      whatever the stage does with earlier ones; only an entry that is not a
      dict (whose `.get` raises outside the per-company handler) stops the
      loop there. */
  method RunCompanies(companies: seq<Value>, stage: Dict -> Result<Dict>) returns (out: MainOutcome)
    ensures !out.NoCheckpoint?
    ensures FirstNonDict(companies).None? <==> out.Completed?
    ensures out.Completed? ==> |out.attempts| == |companies|
    ensures out.Aborted? ==> |out.attempts| == FirstNonDict(companies).value
    ensures AttemptsMatch(out.attempts, companies, stage)
  {
    var attempts: seq<Attempt> := [];
    for i := 0 to |companies|
      invariant |attempts| == i
      invariant AttemptsMatch(attempts, companies, stage)
    {
      var companyData := companies[i];
      if !companyData.Obj? {
        FirstNonDictAt(companies, i);
        return Aborted(attempts, "object has no attribute 'get'");
      }
      var d := companyData.fields;
      var companyName := DisplayName(d, i + 1);
      var inputData := InputData(d);
      var result := stage(inputData);
      attempts := attempts + [Attempt(companyName, inputData, result)];
    }
    return Completed(attempts);
  }

  /** `main`: a missing checkpoint returns before any company is processed and
      an unreadable one is caught by the outer handler. A list is run company
      by company. Any other JSON value is iterated as Python iterates it: the
      characters of a string and the keys of an object are strings, so a
      non-empty one raises at the first `.get`, an empty one finishes with no
      company, and a number, boolean or null raises at `len()`. */
  method RunMain(checkpoint: Checkpoint, stage: Dict -> Result<Dict>) returns (out: MainOutcome)
    ensures checkpoint.Missing? <==> out.NoCheckpoint?
    ensures checkpoint.Unreadable? ==> out == Aborted([], checkpoint.error)
    ensures checkpoint.Loaded? && checkpoint.top.List? ==>
      var companies := checkpoint.top.items;
      && (FirstNonDict(companies).None? <==> out.Completed?)
      && (out.Completed? ==> |out.attempts| == |companies|)
      && (out.Aborted? ==> |out.attempts| == FirstNonDict(companies).value)
      && AttemptsMatch(out.attempts, companies, stage)
    ensures checkpoint.Loaded? && !checkpoint.top.List? ==>
      && !out.NoCheckpoint? && out.attempts == []
      && (out.Completed? <==> (checkpoint.top.Str? && |checkpoint.top.s| == 0) ||
                              (checkpoint.top.Obj? && |checkpoint.top.fields| == 0))
  {
    match checkpoint {
      case Missing =>
        return NoCheckpoint;
      case Unreadable(e) =>
        return Aborted([], e);
      case Loaded(top) =>
        match top {
          case List(companies) =>
            out := RunCompanies(companies, stage);
          case Str(text) =>
            if |text| == 0 {
              return Completed([]);
            }
            return Aborted([], "'str' object has no attribute 'get'");
          case Obj(fields) =>
            if |fields| == 0 {
              return Completed([]);
            }
            return Aborted([], "'str' object has no attribute 'get'");
          case _ =>
            return Aborted([], "object has no len()");
        }
    }
  }
}
