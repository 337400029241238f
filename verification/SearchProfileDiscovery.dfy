/** Executing the query plan of a search profile against a discovery provider, without persistence. */
module SearchProfileDiscovery {
  import opened Common
  import opened Text
  import opened Platform

  datatype SearchQuery = SearchQuery(
    text: string, profileId: nat, profileName: string, city: Option<string>, countryCode: Option<string>)

  datatype QueryPreview = QueryPreview(
    profileId: nat, profileName: string, queryCount: nat, estimatedProviderRequests: nat,
    resultLimitPerQuery: nat, totalResultCeiling: nat, queries: seq<SearchQuery>)

  datatype Profile = Profile(id: nat, projectId: nat, name: string, enabled: bool)

  /** The subset of codes a provider failure carries. */
  type ProviderErrorCode = code: ErrorCode |
    !code.CandidateInvalid? && !code.ExecutionInvalid? && !code.ExecutionFailed? witness AuthenticationError

  datatype IngestionItem = IngestionItem(
    position: Option<int>, name: string, website: Option<string>, city: Option<string>,
    industry: Option<string>, notes: Option<string>)

  /** One provider result: the ingestion item the result adapter makes of it, or its refusal. */
  datatype ProviderResult = Adaptable(item: IngestionItem) | Unadaptable

  /** How the provider answers one query; `Crash` is any exception outside its own error classes. */
  datatype Reply =
    | Answer(results: seq<ProviderResult>)
    | Failure(code: ProviderErrorCode, diagnostic: Option<Diagnostic>)
    | Crash

  datatype QueryResult = QueryResult(
    query: SearchQuery, provider: string,
    providerResultCount: nat, adaptedItemCount: nat, adapterErrorCount: nat,
    providerError: Option<ErrorCode>, diagnostic: Option<Diagnostic>, items: seq<IngestionItem>, adapterErrors: nat)

  datatype DryRun = DryRun(
    profileId: nat, profileName: string, provider: string,
    queryCount: nat, estimatedProviderRequests: nat, executedQueries: nat,
    totalProviderResults: nat, totalAdaptedItems: nat, totalAdapterErrors: nat, totalProviderErrors: nat,
    totalResultCeiling: nat, stoppedEarly: bool, stopReason: Option<ErrorCode>, queryResults: seq<QueryResult>)

  /** Errors that end the walk over the plan; the two others skip to the next query. */
  predicate Fatal(code: ErrorCode) {
    !code.RequestError? && !code.ResponseError?
  }

  // ----- Revalidating a query preview --------------------------------------------------------------

  function RevalidateQuery(t: Tables, query: SearchQuery): Checked<SearchQuery> {
    if query.countryCode.None? then Valid(query)
    else match t.isoCountry(query.countryCode.value)
      case None => Invalid
      case Some(code) => Valid(query.(countryCode := Some(code)))
  }

  function RevalidateQueries(t: Tables, queries: seq<SearchQuery>): Checked<seq<SearchQuery>> {
    if |queries| == 0 then Valid([])
    else
      var front :- RevalidateQueries(t, queries[..|queries| - 1]);
      var last :- RevalidateQuery(t, queries[|queries| - 1]);
      Valid(front + [last])
  }

  function RevalidatePreview(t: Tables, profile: Profile, preview: QueryPreview): Checked<QueryPreview> {
    var queries :- RevalidateQueries(t, preview.queries);
    if preview.queryCount != |queries| || preview.estimatedProviderRequests != |queries|
       || preview.profileId != profile.id || preview.profileName != profile.name then Invalid
    else Valid(preview.(queries := queries))
  }

  method RevalidateQueryPreview(t: Tables, profile: Profile, preview: QueryPreview) returns (r: Checked<QueryPreview>)
    ensures r == RevalidatePreview(t, profile, preview)
  {
    var queries := [];
    var failed := false;
    for i := 0 to |preview.queries|
      invariant !failed ==> RevalidateQueries(t, preview.queries[..i]) == Valid(queries)
      invariant failed ==> RevalidateQueries(t, preview.queries[..i]).Invalid?
    {
      assert preview.queries[..i + 1][..i] == preview.queries[..i];
      var query := RevalidateQuery(t, preview.queries[i]);
      if query.Invalid? {
        failed := true;
      } else if !failed {
        queries := queries + [query.value];
      }
    }
    assert preview.queries[..|preview.queries|] == preview.queries;
    if failed || preview.queryCount != |queries| || preview.estimatedProviderRequests != |queries|
       || preview.profileId != profile.id || preview.profileName != profile.name {
      return Invalid;
    }
    r := Valid(preview.(queries := queries));
  }

  lemma {:induction false} RevalidatedQueries(t: Tables, queries: seq<SearchQuery>)
    requires t.CountryLaw() && RevalidateQueries(t, queries).Valid?
    ensures var again := RevalidateQueries(t, queries).value;
      |again| == |queries| && RevalidateQueries(t, again) == Valid(again)
  {
    if |queries| != 0 {
      RevalidatedQueries(t, queries[..|queries| - 1]);
      var again := RevalidateQueries(t, queries).value;
      assert again[..|again| - 1] == RevalidateQueries(t, queries[..|queries| - 1]).value;
    }
  }

  /** A revalidated preview is left alone by a second revalidation. */
  lemma RevalidationIsIdempotent(t: Tables, profile: Profile, preview: QueryPreview)
    requires t.CountryLaw() && RevalidatePreview(t, profile, preview).Valid?
    ensures var valid := RevalidatePreview(t, profile, preview).value;
      && RevalidatePreview(t, profile, valid) == Valid(valid)
      && valid.queryCount == |valid.queries| == |preview.queries|
  {
    RevalidatedQueries(t, preview.queries);
  }

  // ----- run_dry -----------------------------------------------------------------------------------

  function Items(results: seq<ProviderResult>): (items: seq<IngestionItem>)
    ensures |items| <= |results|
  {
    if |results| == 0 then []
    else
      var front := Items(results[..|results| - 1]);
      var last := results[|results| - 1];
      if last.Adaptable? then front + [last.item] else front
  }

  /** Only a plain request error hands its diagnostic on; the clause for rate limits and quotas comes first. */
  function KeptDiagnostic(code: ProviderErrorCode, diagnostic: Option<Diagnostic>): Option<Diagnostic> {
    if code.RequestError? then diagnostic else None
  }

  function QueryOutcome(query: SearchQuery, provider: string, reply: Reply): QueryResult
    requires !reply.Crash?
  {
    match reply
    case Failure(code, diagnostic) =>
      QueryResult(query, provider, 0, 0, 0, Some(code), KeptDiagnostic(code, diagnostic), [], 0)
    case Answer(results) =>
      var items := Items(results);
      var errors := |results| - |items|;
      QueryResult(query, provider, |results|, |items|, errors, None, None, items, errors)
  }

  /** The results from the i-th query on, up to the first fatal error; `None` when the provider crashes before it. */
  function Walk(queries: seq<SearchQuery>, provider: string, replies: nat -> Reply, i: nat): Option<seq<QueryResult>>
    requires i <= |queries|
    decreases |queries| - i
  {
    if i == |queries| then Some([])
    else if replies(i).Crash? then None
    else
      var outcome := QueryOutcome(queries[i], provider, replies(i));
      if replies(i).Failure? && Fatal(replies(i).code) then Some([outcome])
      else Prepend([outcome], Walk(queries, provider, replies, i + 1))
  }

  function Prepend(front: seq<QueryResult>, rest: Option<seq<QueryResult>>): Option<seq<QueryResult>> {
    if rest.None? then None else Some(front + rest.value)
  }

  function StopReason(results: seq<QueryResult>): Option<ErrorCode> {
    if |results| == 0 then None
    else
      var error := results[|results| - 1].providerError;
      if error.Some? && Fatal(error.value) then error else None
  }

  function ProviderResults(results: seq<QueryResult>): nat {
    if |results| == 0 then 0 else ProviderResults(results[..|results| - 1]) + results[|results| - 1].providerResultCount
  }

  function AdaptedItems(results: seq<QueryResult>): nat {
    if |results| == 0 then 0 else AdaptedItems(results[..|results| - 1]) + results[|results| - 1].adaptedItemCount
  }

  function AdapterErrors(results: seq<QueryResult>): nat {
    if |results| == 0 then 0 else AdapterErrors(results[..|results| - 1]) + results[|results| - 1].adapterErrorCount
  }

  function ProviderErrors(results: seq<QueryResult>): nat {
    if |results| == 0 then 0
    else ProviderErrors(results[..|results| - 1]) + if results[|results| - 1].providerError.Some? then 1 else 0
  }

  function DryRunResult(preview: QueryPreview, provider: string, results: seq<QueryResult>,
                        stoppedEarly: bool, stopReason: Option<ErrorCode>): DryRun
  {
    DryRun(preview.profileId, Strip(preview.profileName), provider, preview.queryCount,
           preview.estimatedProviderRequests, |results|, ProviderResults(results), AdaptedItems(results),
           AdapterErrors(results), ProviderErrors(results), preview.totalResultCeiling,
           stoppedEarly, stopReason, results)
  }

  /** `ControlledError` is the service's own exception; `UnexpectedError` is any other. */
  datatype ExecutionError = ControlledError | UnexpectedError

  function RunDry(t: Tables, profile: Profile, providerName: string, preview: QueryPreview, replies: nat -> Reply):
    Result<DryRun, ExecutionError>
  {
    if !profile.enabled || Strip(providerName) == "" then Err(ControlledError)
    else match RevalidatePreview(t, profile, preview)
      case Invalid => Err(ControlledError)
      case Valid(valid) =>
        match Walk(valid.queries, Strip(providerName), replies, 0)
        case None => Err(UnexpectedError)
        case Some(results) =>
          // The result's own field validators refuse a blank profile name.
          if Strip(valid.profileName) == "" then Err(UnexpectedError)
          else Ok(DryRunResult(valid, Strip(providerName), results, StopReason(results).Some?, StopReason(results)))
  }

  /** One more answered query: the walk ends with it or goes on behind it. */
  lemma WalkOn(queries: seq<SearchQuery>, provider: string, replies: nat -> Reply, i: nat, front: seq<QueryResult>)
    requires i < |queries| && !replies(i).Crash?
    ensures var outcome := QueryOutcome(queries[i], provider, replies(i));
      && StopReason(front + [outcome]) == (if StopsAt(replies(i)) then outcome.providerError else None)
      && (StopsAt(replies(i)) <==> StopReason(front + [outcome]).Some?)
      && Prepend(front, Walk(queries, provider, replies, i)) ==
         if StopsAt(replies(i)) then Some(front + [outcome])
         else Prepend(front + [outcome], Walk(queries, provider, replies, i + 1))
  {
    var outcome := QueryOutcome(queries[i], provider, replies(i));
    var tail := Walk(queries, provider, replies, i + 1);
    assert tail.Some? ==> front + ([outcome] + tail.value) == (front + [outcome]) + tail.value;
  }

  method ExecuteDry(t: Tables, profile: Profile, providerName: string, preview: QueryPreview, replies: nat -> Reply)
    returns (r: Result<DryRun, ExecutionError>)
    ensures r == RunDry(t, profile, providerName, preview, replies)
  {
    if !profile.enabled || Strip(providerName) == "" {
      return Err(ControlledError);
    }
    var provider := Strip(providerName);
    var validated := RevalidateQueryPreview(t, profile, preview);
    if validated.Invalid? {
      return Err(ControlledError);
    }
    var queries := validated.value.queries;
    var results: seq<QueryResult> := [];
    var stoppedEarly := false;
    var stopReason: Option<ErrorCode> := None;
    var i := 0;
    ghost var whole := Walk(queries, provider, replies, 0);
    assert whole.Some? ==> [] + whole.value == whole.value;
    while i < |queries| && !stoppedEarly
      invariant 0 <= i <= |queries| && |results| == i
      invariant !stoppedEarly ==> whole == Prepend(results, Walk(queries, provider, replies, i))
      invariant stoppedEarly ==> whole == Some(results)
      invariant stopReason == StopReason(results) && stoppedEarly == stopReason.Some?
    {
      if replies(i).Crash? {
        return Err(UnexpectedError);
      }
      WalkOn(queries, provider, replies, i, results);
      var outcome := SearchOne(queries[i], provider, replies(i));
      results := results + [outcome];
      if replies(i).Failure? && Fatal(replies(i).code) {
        stoppedEarly, stopReason := true, Some(replies(i).code);
      }
      i := i + 1;
    }
    assert !stoppedEarly ==> results + [] == results;
    if Strip(validated.value.profileName) == "" {
      return Err(UnexpectedError);
    }
    r := Ok(DryRunResult(validated.value, provider, results, stoppedEarly, stopReason));
  }

  method SearchOne(query: SearchQuery, provider: string, reply: Reply) returns (outcome: QueryResult)
    requires !reply.Crash?
    ensures outcome == QueryOutcome(query, provider, reply)
  {
    match reply {
      case Failure(code, diagnostic) =>
        outcome := QueryResult(query, provider, 0, 0, 0, Some(code), KeptDiagnostic(code, diagnostic), [], 0);
      case Answer(results) =>
        var items := AdaptResults(results);
        var errors := |results| - |items|;
        outcome := QueryResult(query, provider, |results|, |items|, errors, None, None, items, errors);
    }
  }

  method AdaptResults(results: seq<ProviderResult>) returns (items: seq<IngestionItem>)
    ensures items == Items(results)
  {
    items := [];
    for i := 0 to |results|
      invariant items == Items(results[..i])
    {
      assert results[..i + 1][..i] == results[..i];
      if results[i].Adaptable? {
        items := items + [results[i].item];
      }
    }
    assert results[..|results|] == results;
  }

  // ----- What run_dry guarantees -------------------------------------------------------------------

  /** The validator of one query result. */
  predicate ValidQueryResult(r: QueryResult) {
    r.adaptedItemCount == |r.items| && r.adapterErrorCount == r.adapterErrors
  }

  /** The validator of the dry-run report: every total is the sum over the query results. */
  predicate ValidDryRun(r: DryRun) {
    && Strip(r.profileName) != "" && Strip(r.provider) != ""
    && r.executedQueries == |r.queryResults|
    && r.totalProviderResults == ProviderResults(r.queryResults)
    && r.totalAdaptedItems == AdaptedItems(r.queryResults)
    && r.totalAdapterErrors == AdapterErrors(r.queryResults)
    && r.totalProviderErrors == ProviderErrors(r.queryResults)
    && r.queryCount >= r.executedQueries
    && r.estimatedProviderRequests == r.queryCount
    && (r.stoppedEarly <==> r.stopReason.Some?)
    && forall i :: 0 <= i < |r.queryResults| ==> ValidQueryResult(r.queryResults[i])
  }

  predicate StopsAt(reply: Reply) {
    reply.Failure? && Fatal(reply.code)
  }

  /**
   The shape of a report on the plan from a given query on: its results answer the next queries in order,
   the walk goes past every answer but a fatal error, and it stops early only at one.
   */
  ghost predicate FollowsPlan(queries: seq<SearchQuery>, provider: string, replies: nat -> Reply, start: nat,
                              results: seq<QueryResult>)
  {
    && start + |results| <= |queries|
    && (forall k :: start <= k < start + |results| ==>
        !replies(k).Crash? && results[k - start] == QueryOutcome(queries[k], provider, replies(k)))
    && (forall k :: start <= k < start + |results| - 1 ==> !StopsAt(replies(k)))
    && (start + |results| < |queries| ==> |results| > 0 && StopsAt(replies(start + |results| - 1)))
  }

  lemma {:induction false} WalkShape(queries: seq<SearchQuery>, provider: string, replies: nat -> Reply, i: nat)
    requires i <= |queries| && Walk(queries, provider, replies, i).Some?
    ensures FollowsPlan(queries, provider, replies, i, Walk(queries, provider, replies, i).value)
    decreases |queries| - i
  {
    if i < |queries| && !StopsAt(replies(i)) {
      WalkShape(queries, provider, replies, i + 1);
      var rest := Walk(queries, provider, replies, i + 1).value;
      var first := QueryOutcome(queries[i], provider, replies(i));
      ConsFollowsPlan(queries, provider, replies, i, first, rest);
    }
  }

  lemma ConsFollowsPlan(queries: seq<SearchQuery>, provider: string, replies: nat -> Reply, i: nat,
                        first: QueryResult, rest: seq<QueryResult>)
    requires i < |queries| && !replies(i).Crash? && !StopsAt(replies(i))
    requires first == QueryOutcome(queries[i], provider, replies(i))
    requires FollowsPlan(queries, provider, replies, i + 1, rest)
    ensures FollowsPlan(queries, provider, replies, i, [first] + rest)
  {
    var whole := [first] + rest;
    forall k | i <= k < i + |whole|
      ensures !replies(k).Crash? && whole[k - i] == QueryOutcome(queries[k], provider, replies(k))
    {
      assert k > i ==> whole[k - i] == rest[k - (i + 1)];
    }
  }

  /** The items and the refusals of one answer add up to its results; a failed query has neither. */
  lemma QueryConservation(query: SearchQuery, provider: string, reply: Reply)
    requires !reply.Crash?
    ensures var r := QueryOutcome(query, provider, reply);
      && ValidQueryResult(r)
      && r.adaptedItemCount + r.adapterErrorCount == r.providerResultCount
      && (r.providerError.Some? ==> r.items == [] && r.providerResultCount == 0)
      && (reply.Answer? ==> r.providerResultCount == |reply.results|)
  {
  }

  /** Each result of a walk conserves its provider's results, and an early stop leaves a provider error behind. */
  lemma WalkConserves(queries: seq<SearchQuery>, provider: string, replies: nat -> Reply, results: seq<QueryResult>)
    requires FollowsPlan(queries, provider, replies, 0, results)
    ensures forall k :: 0 <= k < |results| ==>
      && ValidQueryResult(results[k])
      && results[k].adaptedItemCount + results[k].adapterErrorCount == results[k].providerResultCount
      && results[k].query == queries[k] && results[k].provider == provider
      && (results[k].providerError.Some? ==> results[k].items == [])
    ensures StopReason(results).Some? ==> ProviderErrors(results) > 0
    ensures StopReason(results).Some? <==> |results| > 0 && StopsAt(replies(|results| - 1))
  {
    forall k | 0 <= k < |results|
      ensures && ValidQueryResult(results[k])
              && results[k].adaptedItemCount + results[k].adapterErrorCount == results[k].providerResultCount
              && (results[k].providerError.Some? ==> results[k].items == [])
    {
      QueryConservation(queries[k], provider, replies(k));
    }
  }

  /**
   One result per query of a prefix of the plan that ends at the first fatal error, items plus refusals equal
   to the provider's results in each, and totals that meet the report's validator.
   */
  lemma RunDryGuarantees(t: Tables, profile: Profile, providerName: string, preview: QueryPreview,
                         replies: nat -> Reply, valid: QueryPreview, r: DryRun)
    requires t.CountryLaw() && RevalidatePreview(t, profile, preview) == Valid(valid)
    requires RunDry(t, profile, providerName, preview, replies) == Ok(r)
    ensures ValidDryRun(r)
    ensures FollowsPlan(valid.queries, Strip(providerName), replies, 0, r.queryResults)
    ensures forall k :: 0 <= k < |r.queryResults| ==>
      r.queryResults[k].adaptedItemCount + r.queryResults[k].adapterErrorCount == r.queryResults[k].providerResultCount
    ensures r.stoppedEarly <==> |r.queryResults| > 0 && StopsAt(replies(|r.queryResults| - 1))
    ensures r.stoppedEarly ==> r.totalProviderErrors > 0
  {
    RevalidationIsIdempotent(t, profile, preview);
    WalkShape(valid.queries, Strip(providerName), replies, 0);
    WalkConserves(valid.queries, Strip(providerName), replies, r.queryResults);
    StripShape(providerName);
    StripShape(valid.profileName);
  }
}
