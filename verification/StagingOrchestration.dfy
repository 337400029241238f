/** Candidate staging for a search profile: execute, adapt, deduplicate, classify, persist, report. */
module StagingOrchestration {
  import opened Common
  import opened Text
  import opened Platform
  import opened StagingNormalization
  import opened DiscoveryTables
  import opened SearchProfileDiscovery
  import opened StagingAdapter
  import opened StagingMerge
  import opened StagingDeduplication
  import opened StagingRepository

  /** The bounded preview of one deduplicated row. */
  datatype Card = Card(
    name: Option<string>, website: Option<string>, websiteIdentity: Option<string>, countryCode: Option<string>,
    bestPosition: Option<nat>, identityKey: string,
    city: Option<string>, industry: Option<string>, snippet: Option<string>)

  datatype RunReport = RunReport(
    projectId: nat, searchProfileId: nat, profileName: string, provider: string, dryRun: bool,
    status: RunStatus, queryCount: nat, executedQueries: nat, successfulQueries: nat,
    providerResultCount: nat, providerErrorCount: nat, adapterErrorCount: nat,
    rejectedCount: nat, duplicateCount: nat, uniqueCount: nat,
    upserts: nat, created: nat, updated: nat, isProtected: nat,
    runId: Option<nat>, runPersisted: bool, stoppedEarly: bool, stopReason: Option<ErrorCode>,
    errorCode: Option<ErrorCode>, providerDiagnostic: Option<Diagnostic>, candidates: seq<Card>)

  /** How a staging run can raise instead of reporting. */
  datatype StagingError =
    | MissingRepository | NotOneQuery | InvalidSnapshot
    | ProfileExecutionError | PersistenceSubstage | UnshowableCandidate | InvalidReport

  // ----- Provider names ------------------------------------------------------------------------------

  function ResolveProviderName(raw: Option<string>): Option<string> {
    if raw.None? then None
    else
      var normalized := Collapse(Strip(raw.value));
      if normalized == "" || |normalized| > 100 || HasMarkup(normalized) then None else Some(normalized)
  }

  const INVALID_PROVIDER := "invalid-provider"

  // ----- Checking the execution result against the plan ------------------------------------------------

  predicate MatchesPlan(profile: Profile, providerName: string, preview: QueryPreview, r: DryRun) {
    && profile.id == r.profileId && profile.name == r.profileName && providerName == r.provider
    && preview.queryCount == r.queryCount
    && preview.estimatedProviderRequests == r.estimatedProviderRequests
    && preview.totalResultCeiling == r.totalResultCeiling
    && r.executedQueries == |r.queryResults| && r.executedQueries <= r.queryCount
    && |r.queryResults| <= |preview.queries|
    && (r.stoppedEarly <==> r.stopReason.Some?)
    && forall i :: 0 <= i < |r.queryResults| ==>
       var result := r.queryResults[i];
       && result.query == preview.queries[i]
       && result.query.profileId == profile.id && result.query.profileName == profile.name
       && result.provider == providerName
  }

  /**
   The report of `run_dry` passes the orchestrator's own check exactly when stripping and collapsing the
   provider name give the same text, the profile name is stripped, and each executed query names the profile.
   */
  lemma CheckPassesExactlyWhenNamesAgree(t: Tables, profile: Profile, raw: string, preview: QueryPreview,
                                         replies: nat -> Reply, r: DryRun)
    requires t.CountryLaw() && RevalidatePreview(t, profile, preview) == Valid(preview)
    requires RunDry(t, profile, raw, preview, replies) == Ok(r)
    ensures MatchesPlan(profile, Collapse(Strip(raw)), preview, r) <==>
      && Strip(raw) == Collapse(raw)
      && Strip(profile.name) == profile.name
      && forall i :: 0 <= i < |r.queryResults| ==>
         r.queryResults[i].query.profileId == profile.id && r.queryResults[i].query.profileName == profile.name
  {
    RunDryGuarantees(t, profile, raw, preview, replies, preview, r);
    RevalidationIsIdempotent(t, profile, preview);
    WalkConserves(preview.queries, Strip(raw), replies, r.queryResults);
    CollapseOfStrip(raw);
  }

  // ----- Classifying the outcome -------------------------------------------------------------------------

  function FirstProviderError(results: seq<QueryResult>): Option<ErrorCode> {
    if |results| == 0 then None
    else if results[0].providerError.Some? then results[0].providerError
    else FirstProviderError(results[1..])
  }

  /** The diagnostic of the first query whose provider call failed, which may have none. */
  function FirstDiagnostic(results: seq<QueryResult>): Option<Diagnostic> {
    if |results| == 0 then None
    else if results[0].providerError.Some? then results[0].diagnostic
    else FirstDiagnostic(results[1..])
  }

  function OrExecutionFailed(code: Option<ErrorCode>): Option<ErrorCode> {
    if code.Some? then code else Some(ExecutionFailed)
  }

  function SuccessfulQueries(results: seq<QueryResult>): nat {
    if |results| == 0 then 0
    else SuccessfulQueries(results[..|results| - 1]) + if results[|results| - 1].providerError.None? then 1 else 0
  }

  function EvaluateStatus(r: DryRun, unique: nat, rejections: nat): (RunStatus, Option<ErrorCode>) {
    if r.queryCount == 0 then (NotFound, None)
    else if SuccessfulQueries(r.queryResults) == 0 then
      if r.totalProviderErrors > 0 then (Failed, OrExecutionFailed(FirstProviderError(r.queryResults)))
      else (Failed, Some(ExecutionFailed))
    else if unique > 0 then
      if r.totalProviderErrors == 0 && r.totalAdapterErrors == 0 && rejections == 0
        && !r.stoppedEarly then (Succeeded, None)
      else if r.totalProviderErrors > 0 then (Partial, FirstProviderError(r.queryResults))
      else if r.stoppedEarly then (Partial, OrExecutionFailed(r.stopReason))
      else (Partial, Some(CandidateInvalid))
    else if r.totalProviderErrors > 0 then (Partial, FirstProviderError(r.queryResults))
    else if r.stoppedEarly then (Partial, OrExecutionFailed(r.stopReason))
    else if r.totalAdapterErrors > 0 || rejections > 0 then (Partial, Some(CandidateInvalid))
    else (NotFound, None)
  }

  lemma {:induction false} FirstErrorIsMember(results: seq<QueryResult>)
    ensures FirstProviderError(results).Some? <==> exists r :: r in results && r.providerError.Some?
    ensures FirstProviderError(results).Some? ==> exists r ::
      r in results && r.providerError == FirstProviderError(results)
  {
    if |results| != 0 {
      FirstErrorIsMember(results[1..]);
      assert results[0] in results;
      assert forall r :: r in results ==> r == results[0] || r in results[1..];
    }
  }

  lemma {:induction false} ErrorCountIsMember(results: seq<QueryResult>)
    ensures ProviderErrors(results) > 0 <==> exists r :: r in results && r.providerError.Some?
    ensures SuccessfulQueries(results) + ProviderErrors(results) == |results|
  {
    if |results| != 0 {
      var n := |results| - 1;
      ErrorCountIsMember(results[..n]);
      assert results[n] in results;
      assert forall r :: r in results ==> r == results[n] || r in results[..n];
    }
  }

  /** What the walk over a plan guarantees to the classifier. */
  ghost predicate Walked(r: DryRun) {
    && r.totalProviderErrors == ProviderErrors(r.queryResults)
    && (r.stoppedEarly ==> r.totalProviderErrors > 0)
    && (|r.queryResults| == 0 <==> r.queryCount == 0)
    && |r.queryResults| <= r.queryCount
    && (forall k :: 0 <= k < |r.queryResults| ==>
        && (r.queryResults[k].providerError.Some? ==>
            IsProviderCode(r.queryResults[k].providerError.value) && r.queryResults[k].items == []))
  }

  predicate IsProviderCode(code: ErrorCode) {
    code != CandidateInvalid && code != ExecutionInvalid && code != ExecutionFailed
  }

  lemma RunDryWalks(t: Tables, profile: Profile, raw: string, preview: QueryPreview, replies: nat -> Reply, r: DryRun)
    requires t.CountryLaw() && RevalidatePreview(t, profile, preview) == Valid(preview)
    requires RunDry(t, profile, raw, preview, replies) == Ok(r)
    ensures Walked(r) && ValidDryRun(r)
  {
    RunDryGuarantees(t, profile, raw, preview, replies, preview, r);
    RevalidationIsIdempotent(t, profile, preview);
    WalkConserves(preview.queries, Strip(raw), replies, r.queryResults);
  }

  /**
   What the four statuses mean for a report of `run_dry`. The two branches that look at an early stop after
   the provider errors were ruled out are never taken, and neither is the fallback code for a missing error.
   */
  lemma StatusMeaning(r: DryRun, unique: nat, rejections: nat)
    requires Walked(r)
    requires unique > 0 ==> exists k :: 0 <= k < |r.queryResults| && r.queryResults[k].items != []
    ensures var (status, code) := EvaluateStatus(r, unique, rejections);
      && (status == Succeeded <==>
          unique > 0 && r.totalProviderErrors == 0 && r.totalAdapterErrors == 0 && rejections == 0)
      && (status == Failed <==>
          r.queryCount > 0 && forall k :: 0 <= k < |r.queryResults| ==> r.queryResults[k].providerError.Some?)
      && (status == NotFound <==>
          unique == 0 && (r.queryCount == 0 ||
            (r.totalProviderErrors == 0 && r.totalAdapterErrors == 0 && rejections == 0)))
      && status != Pending
      && (code.None? <==> status == Succeeded || status == NotFound)
      && (code.Some? ==> code == if r.totalProviderErrors > 0 then FirstProviderError(r.queryResults)
                                 else Some(CandidateInvalid))
      && (code.Some? && r.totalProviderErrors > 0 ==> IsProviderCode(code.value))
  {
    var results := r.queryResults;
    FirstErrorIsMember(results);
    ErrorCountIsMember(results);
    SuccessIsMember(results);
    if FirstProviderError(results).Some? {
      var q :| q in results && q.providerError == FirstProviderError(results);
      var k :| 0 <= k < |results| && results[k] == q;
      assert IsProviderCode(results[k].providerError.value);
    }
    if unique > 0 {
      var k :| 0 <= k < |results| && results[k].items != [];
      assert results[k].providerError.None?;
    }
    if ProviderErrors(results) == 0 && |results| != 0 {
      assert results[0] in results;
    }
  }

  lemma {:induction false} SuccessIsMember(results: seq<QueryResult>)
    ensures SuccessfulQueries(results) > 0 <==> exists k :: 0 <= k < |results| && results[k].providerError.None?
  {
    if |results| != 0 {
      var n := |results| - 1;
      SuccessIsMember(results[..n]);
      assert forall k :: 0 <= k < n ==> results[..n][k] == results[k];
    }
  }

  // ----- Candidate cards -----------------------------------------------------------------------------------

  /** A text shown in a card is normalised with NFKC, which the draft it comes from was not. */
  function ShownText(t: Tables, value: Option<string>, maximum: nat): Checked<Option<string>> {
    if value.Some? && |value.value| > maximum then Invalid else NormalizeDisplayName(t, value)
  }

  function ShownWebsite(t: Tables, website: Option<string>): Checked<Option<string>> {
    if website.None? then Valid(None)
    else if |website.value| > 500 then Invalid
    else
      var site :- NormalizeStagingWebsite(t, website.value);
      Valid(Some(site.url))
  }

  /** A card is built from the values given to it, each validated; a text is bounded before NFKC, not after. */
  function BuildCard(t: Tables, raw: Card): Checked<Card> {
    var name :- ShownText(t, raw.name, 255);
    var website :- ShownWebsite(t, raw.website);
    var websiteIdentity :- CleanText(raw.websiteIdentity, 300);
    var countryCode :- NormalizeCountryCode(t, raw.countryCode);
    var key := Collapse(Strip(raw.identityKey));
    var city :- ShownText(t, raw.city, 100);
    var industry :- ShownText(t, raw.industry, 100);
    var snippet :- ShownText(t, raw.snippet, 1000);
    if |raw.identityKey| > 700 || key == "" || HasMarkup(key) then Invalid
    else Valid(Card(name, website, websiteIdentity, countryCode, raw.bestPosition, key, city, industry, snippet))
  }

  function CandidatePreview(t: Tables, row: Row): Checked<Card> {
    var fields := row.sighting.fields;
    BuildCard(t, Card(fields.name, fields.website, fields.websiteIdentity, fields.countryCode, row.sighting.position,
                      fields.identityKey, row.draft.city, row.draft.industry, row.draft.snippet))
  }

  /** The cards, or a refusal if one of them was refused. */
  function AllValid(xs: seq<Checked<Card>>): Checked<seq<Card>> {
    if |xs| == 0 then Valid([])
    else
      var front :- AllValid(xs[..|xs| - 1]);
      var last :- xs[|xs| - 1];
      Valid(front + [last])
  }

  function CandidatePreviews(t: Tables, rows: seq<Row>): Checked<seq<Card>> {
    AllValid(seq(|rows|, i requires 0 <= i < |rows| => CandidatePreview(t, rows[i])))
  }

  lemma {:induction false} AllValidExactlyWhen(xs: seq<Checked<Card>>)
    ensures AllValid(xs).Valid? <==> forall i :: 0 <= i < |xs| ==> xs[i].Valid?
    ensures AllValid(xs).Valid? ==> |AllValid(xs).value| == |xs|
    ensures AllValid(xs).Valid? ==> forall i :: 0 <= i < |xs| ==> xs[i] == Valid(AllValid(xs).value[i])
  {
    if |xs| != 0 {
      var front := xs[..|xs| - 1];
      AllValidExactlyWhen(front);
      assert forall i :: 0 <= i < |front| ==> front[i] == xs[i];
    }
  }

  /** NFKC turns no character of the text into markup: a fullwidth `<` or `>` is the case that it does. */
  predicate SafeUnderNfkc(t: Tables, value: Option<string>) {
    value.Some? ==> !HasMarkup(Collapse(t.nfkc(value.value)))
  }

  /** A row that can be stored and shown: its fields normalise once more and its texts survive NFKC. */
  predicate Presentable(t: Tables, row: Row) {
    && Restage(t, row.sighting.fields).Valid?
    && SafeUnderNfkc(t, row.draft.city) && SafeUnderNfkc(t, row.draft.industry) && SafeUnderNfkc(t, row.draft.snippet)
  }

  ghost predicate WellFormedRow(t: Tables, projectId: nat, row: Row) {
    && WellAdapted(t, projectId, Adapted(row.draft, row.sighting.fields))
    && row.draft.position == row.sighting.position && row.draft.provider == row.sighting.provider
  }

  /** A row has a card exactly when it is presentable. */
  lemma CardExactlyWhenPresentable(t: Tables, projectId: nat, row: Row)
    requires t.Lawful() && WellFormedRow(t, projectId, row)
    ensures CandidatePreview(t, row).Valid? <==> Presentable(t, row)
  {
    RestageFields(t, row.sighting.fields);
    KeyIsClean(t, row.sighting.fields);
    CardParts(t, row);
  }

  /** A fullwidth sign is stored but cannot be shown: NFKC makes it markup, and the run that found it raises. */
  lemma FullwidthMarkupHasNoCard(t: Tables, projectId: nat, row: Row)
    requires t.Lawful() && WellFormedRow(t, projectId, row)
    requires row.draft.snippet == Some("\U{FF1C}") && t.nfkc("\U{FF1C}") == "<"
    ensures CandidatePreview(t, row).Invalid?
  {
    CardExactlyWhenPresentable(t, projectId, row);
    assert IsNormal("<") && HasMarkup("<");
    NormalIsFixed("<");
  }

  lemma CardParts(t: Tables, row: Row)
    requires var n := row.sighting.fields;
      && NormalForm(t, n) && Restage(t, n) == RestageSite(t, n)
      && CleanText(n.websiteIdentity, 300).Valid?
      && Collapse(Strip(n.identityKey)) != "" && !HasMarkup(Collapse(Strip(n.identityKey)))
    requires CleanedText(row.draft.city, 100) && CleanedText(row.draft.industry, 100)
      && CleanedText(row.draft.snippet, 1000)
    ensures CandidatePreview(t, row).Valid? <==> Presentable(t, row)
  {
    FieldsAreShown(t, row.sighting.fields);
    DraftTextIsShown(t, row.draft.city, 100);
    DraftTextIsShown(t, row.draft.industry, 100);
    DraftTextIsShown(t, row.draft.snippet, 1000);
  }

  lemma FieldsAreShown(t: Tables, n: Normalized)
    requires NormalForm(t, n) && Restage(t, n) == RestageSite(t, n)
    ensures ShownText(t, n.name, 255).Valid? && NormalizeCountryCode(t, n.countryCode).Valid?
    ensures ShownWebsite(t, n.website).Valid? <==> Restage(t, n).Valid?
  {
    if n.name.Some? {
      NormalIsFixed(n.name.value);
    }
  }

  lemma DraftTextIsShown(t: Tables, value: Option<string>, maximum: nat)
    requires CleanedText(value, maximum)
    ensures ShownText(t, value, maximum).Valid? <==> SafeUnderNfkc(t, value)
  {
  }

  lemma KeyIsClean(t: Tables, n: Normalized)
    requires t.Lawful() && NormalForm(t, n)
    ensures CleanText(n.websiteIdentity, 300).Valid?
    ensures Collapse(Strip(n.identityKey)) != "" && !HasMarkup(Collapse(Strip(n.identityKey)))
  {
    KeyHasNoMarkup(t, n);
    StripShape(n.identityKey);
    KeyKinds(n);
    CollapseKeepsCharacters(n.identityKey);
    CollapseOfStrip(n.identityKey);
    if n.websiteIdentity.Some? {
      CollapseKeepsCharacters(n.websiteIdentity.value);
    }
  }

  lemma KeyHasNoMarkup(t: Tables, n: Normalized)
    requires t.Lawful() && NormalForm(t, n)
    ensures !HasMarkup(n.identityKey) && n.identityKey != "" && !IsSpace(n.identityKey[0])
    ensures n.websiteIdentity.Some? ==> !HasMarkup(n.websiteIdentity.value)
  {
    if n.websiteIdentity.Some? {
      var parts :| SiteForm(t, parts, n.website.value, n.websiteIdentity.value);
      IdentityHasNoMarkup(t, parts);
      WebsiteKeyHasNoMarkup(n.websiteIdentity.value);
    } else {
      NamesHaveNoMarkup(t, n);
      NameKeyHasNoMarkup(n.normalizedName.value, n.countryCode.value);
    }
  }

  lemma NamesHaveNoMarkup(t: Tables, n: Normalized)
    requires t.CasefoldLaw() && t.CountryLaw() && NormalForm(t, n)
    ensures n.normalizedName.Some? ==> !HasMarkup(n.normalizedName.value)
    ensures n.countryCode.Some? ==> !HasMarkup(n.countryCode.value)
  {
    if n.countryCode.Some? {
      var code := n.countryCode.value;
      assert t.isoCountry(code) == Some(code);
      assert forall c :: c in code ==> c == code[0] || c == code[1];
    }
  }

  lemma WebsiteKeyHasNoMarkup(identity: string)
    requires !HasMarkup(identity)
    ensures var key := "website:" + identity; !HasMarkup(key) && key != "" && !IsSpace(key[0])
  {
    MarkupOfConcat("website:", identity);
  }

  lemma NameKeyHasNoMarkup(name: string, code: string)
    requires !HasMarkup(name) && !HasMarkup(code)
    ensures var key := "name_country:" + name + "|" + code; !HasMarkup(key) && key != "" && !IsSpace(key[0])
  {
    MarkupOfConcat("name_country:", name);
    MarkupOfConcat("name_country:" + name, "|");
    MarkupOfConcat("name_country:" + name + "|", code);
  }

  lemma MarkupOfConcat(a: string, b: string)
    ensures HasMarkup(a + b) <==> HasMarkup(a) || HasMarkup(b)
  {
  }

  // ----- Persisting the rows ---------------------------------------------------------------------------------

  datatype Counts = Counts(upserts: nat, created: nat, updated: nat, isProtected: nat)

  function CountUpsert(c: Counts, r: UpsertResult): Counts {
    Counts(c.upserts + 1, c.created + (if r.created then 1 else 0), c.updated + (if r.updated then 1 else 0),
           c.isProtected + (if r.isProtected then 1 else 0))
  }

  function UpsertCounted(t: Tables, s: Store, projectId: nat, runId: nat, payloads: seq<CandidateCreate>):
    (r: Result<(Store, Counts), RepositoryError>)
    ensures r.Ok? ==> r.value.1.upserts == |payloads|
    ensures r.Ok? ==> r.value.1.created + r.value.1.updated <= |payloads| && r.value.1.isProtected <= |payloads|
  {
    if |payloads| == 0 then Ok((s, Counts(0, 0, 0, 0)))
    else match UpsertCounted(t, s, projectId, runId, payloads[..|payloads| - 1])
      case Err(error) => Err(error)
      case Ok(before) =>
        match UpsertCandidate(t, before.0, projectId, runId, payloads[|payloads| - 1])
        case Err(error) => Err(error)
        case Ok(result) => Ok((result.0, CountUpsert(before.1, result.1)))
  }

  lemma {:induction false} CountingKeepsTheStore(t: Tables, s: Store, projectId: nat, runId: nat,
                                                 payloads: seq<CandidateCreate>)
    ensures var counted := UpsertCounted(t, s, projectId, runId, payloads);
      var plain := UpsertAll(t, s, projectId, runId, payloads);
      counted.Ok? == plain.Ok? && (counted.Ok? ==> counted.value.0 == plain.value)
  {
    if |payloads| != 0 {
      CountingKeepsTheStore(t, s, projectId, runId, payloads[..|payloads| - 1]);
    }
  }

  // ----- The run as a whole ------------------------------------------------------------------------------------

  /** The bounds of the request snapshot that every report fingerprints. */
  predicate SnapshotOk(profile: Profile, preview: QueryPreview) {
    && profile.id > 0
    && preview.queryCount <= 100
    && 1 <= preview.resultLimitPerQuery <= 100
    && 1 <= preview.totalResultCeiling <= 1000
  }

  function Rejections(t: Tables, projectId: nat, provider: string, results: seq<QueryResult>): (n: nat)
    ensures n + |AdaptAll(t, projectId, provider, results)| == ItemCount(results)
  {
    if |results| == 0 then 0
    else
      var last := results[|results| - 1];
      Rejections(t, projectId, provider, results[..|results| - 1])
      + (|last.items| - |AcceptedItems(t, projectId, provider, last.query, last.items)|)
  }

  /** What becomes of a run once the provider was called: it raises, it fails with a code, or its rows are staged. */
  datatype Verdict =
    | Raise(error: StagingError)
    | Fail(provider: string, code: ErrorCode)
    | Proceed(provider: string, r: DryRun)

  function Judge(t: Tables, profile: Profile, raw: Option<string>, preview: QueryPreview, replies: nat -> Reply):
    Verdict
  {
    match ResolveProviderName(raw)
    case None => Fail(INVALID_PROVIDER, ConfigurationError)
    case Some(provider) =>
      match RunDry(t, profile, raw.value, preview, replies)
      case Err(ControlledError) => Raise(ProfileExecutionError)
      case Err(UnexpectedError) => Fail(provider, ExecutionFailed)
      case Ok(r) =>
        if ValidDryRun(r) && MatchesPlan(profile, provider, preview, r) then Proceed(provider, r)
        else Fail(provider, ExecutionInvalid)
  }

  function FailedReport(profile: Profile, provider: string, preview: QueryPreview, code: ErrorCode, runId: Option<nat>):
    RunReport
  {
    RunReport(profile.projectId, profile.id, profile.name, provider, runId.None?, Failed, preview.queryCount,
              0, 0, 0, 0, 0, 0, 0, 0, 0, 0, 0, 0, runId, runId.Some?, false, None, Some(code), None, [])
  }

  function StagedReport(profile: Profile, provider: string, r: DryRun, rows: seq<Row>, rejections: nat,
                        runId: Option<nat>, counts: Counts, cards: seq<Card>): RunReport
  {
    var (status, code) := EvaluateStatus(r, |rows|, rejections);
    RunReport(profile.projectId, profile.id, profile.name, provider, runId.None?, status,
              r.queryCount, r.executedQueries, SuccessfulQueries(r.queryResults),
              r.totalProviderResults, r.totalProviderErrors, r.totalAdapterErrors, rejections, Duplicates(rows), |rows|,
              counts.upserts, counts.created, counts.updated, counts.isProtected,
              runId, runId.Some?, r.stoppedEarly, r.stopReason, code, FirstDiagnostic(r.queryResults), cards)
  }

  /** The field rules and the validator of the staging report. */
  predicate ValidRunReport(r: RunReport) {
    && r.projectId > 0 && r.searchProfileId > 0
    && Collapse(Strip(r.profileName)) != "" && |r.profileName| <= 255
    && Collapse(Strip(r.provider)) != "" && !HasMarkup(Collapse(Strip(r.provider))) && |r.provider| <= 100
    && (r.stopReason.Some? <==> r.stoppedEarly)
    && r.uniqueCount == |r.candidates|
    && (r.dryRun ==>
        && r.runId.None? && !r.runPersisted
        && r.upserts == 0 && r.created == 0 && r.updated == 0 && r.isProtected == 0)
    && (!r.dryRun && !r.runPersisted ==> r.runId.None? && r.upserts == 0)
    && (r.runPersisted ==> r.runId.Some? && r.runId.value > 0)
    && (r.status == Succeeded || r.status == Partial ==>
        && (r.runPersisted ==> r.upserts == r.uniqueCount)
        && (r.status == Partial && r.uniqueCount == 0 ==> r.errorCode.Some?)
        && (r.runPersisted && r.uniqueCount > 0 ==> r.upserts > 0))
    && (r.status == NotFound || r.status == Failed ==>
        r.uniqueCount == 0 && r.upserts == 0 && r.created == 0 && r.updated == 0 && r.isProtected == 0)
    && r.created + r.updated <= r.upserts
    && (if r.status == Succeeded || r.status == NotFound then r.errorCode.None? else r.errorCode.Some?)
    && r.executedQueries <= r.queryCount
  }

  /** Building a report: refused by its rules, or kept with its names cleaned. */
  function BuildResult(r: RunReport): Result<RunReport, StagingError> {
    if !ValidRunReport(r) then Err(InvalidReport)
    else Ok(r.(profileName := Collapse(Strip(r.profileName)), provider := Collapse(Strip(r.provider))))
  }

  function RowsOf(t: Tables, profile: Profile, provider: string, r: DryRun): seq<Row> {
    Deduplicate(AdaptAll(t, profile.projectId, provider, r.queryResults))
  }

  /** A dry run: no store is read or written. */
  function StageDry(t: Tables, profile: Profile, preview: QueryPreview, verdict: Verdict):
    Result<RunReport, StagingError>
  {
    if verdict.Raise? then Err(verdict.error)
    else if !SnapshotOk(profile, preview) then Err(InvalidSnapshot)
    else match verdict
      case Fail(provider, code) => BuildResult(FailedReport(profile, provider, preview, code, None))
      case Proceed(provider, r) =>
        var rows := RowsOf(t, profile, provider, r);
        match CandidatePreviews(t, rows)
        case Invalid => Err(UnshowableCandidate)
        case Valid(cards) =>
          BuildResult(StagedReport(profile, provider, r, rows,
                                   Rejections(t, profile.projectId, provider, r.queryResults),
                                   None, Counts(0, 0, 0, 0), cards))
  }

  predicate Persists(status: RunStatus) {
    status == Succeeded || status == Partial
  }

  function RowsToStore(status: RunStatus, rows: seq<Row>): seq<Row> {
    if Persists(status) then rows else []
  }

  /** Creating a run, upserting the payloads under its id and closing it. */
  function PersistRun(t: Tables, s: Store, profile: Profile, resultCount: nat, initialCode: Option<ErrorCode>,
                      status: RunStatus, code: Option<ErrorCode>, diagnostic: Option<Diagnostic>, rows: seq<Row>):
    Result<(Store, Counts), RepositoryError>
  {
    match DiscoveryTables.CreateRun(s, profile.projectId, Some(profile.id), resultCount, initialCode)
    case Err(error) => Err(error)
    case Ok(created) =>
      match UpsertCounted(t, created, profile.projectId, s.nextRun, RowPayloads(rows, s.nextRun))
      case Err(error) => Err(error)
      case Ok(staged) =>
        match DiscoveryTables.UpdateRun(staged.0, s.nextRun, status, resultCount, staged.1.upserts, code, diagnostic)
        case Err(error) => Err(error)
        case Ok(updated) => Ok((updated, staged.1))
  }

  /** The run of a report of `run_dry`: its rows are upserted if its status admits any. */
  function PersistStaged(t: Tables, s: Store, profile: Profile, r: DryRun, rows: seq<Row>, rejections: nat):
    Result<(Store, Counts), RepositoryError>
  {
    var (status, code) := EvaluateStatus(r, |rows|, rejections);
    PersistRun(t, s, profile, r.totalProviderResults, None, status, code, FirstDiagnostic(r.queryResults),
               RowsToStore(status, rows))
  }

  function WithTables(report: Result<RunReport, StagingError>, after: Store): Result<(RunReport, Store), StagingError> {
    match report case Ok(value) => Ok((value, after)) case Err(error) => Err(error)
  }

  /** A persisted run: the report and the tables it leaves. */
  function StagePersisted(t: Tables, profile: Profile, preview: QueryPreview, verdict: Verdict, s: Store):
    Result<(RunReport, Store), StagingError>
  {
    if verdict.Raise? then Err(verdict.error)
    else if !SnapshotOk(profile, preview) then Err(InvalidSnapshot)
    else match verdict
      case Fail(provider, code) =>
        (match PersistRun(t, s, profile, 0, Some(code), Failed, Some(code), None, [])
         case Err(_) => Err(PersistenceSubstage)
         case Ok(persisted) =>
           WithTables(BuildResult(FailedReport(profile, provider, preview, code, Some(s.nextRun))), persisted.0))
      case Proceed(provider, r) =>
        var rows := RowsOf(t, profile, provider, r);
        var rejections := Rejections(t, profile.projectId, provider, r.queryResults);
        match PersistStaged(t, s, profile, r, rows, rejections)
        case Err(_) => Err(PersistenceSubstage)
        case Ok(persisted) =>
          match CandidatePreviews(t, rows)
          case Invalid => Err(UnshowableCandidate)
          case Valid(cards) =>
            var report := StagedReport(profile, provider, r, rows, rejections, Some(s.nextRun), persisted.1, cards);
            WithTables(BuildResult(report), persisted.0)
  }

  /** What a call leaves: on success the report and the tables; on an error the caller rolls the session back. */
  predicate Leaves(result: Result<RunReport, StagingError>, after: Store,
                   spec: Result<(RunReport, Store), StagingError>)
  {
    match spec
    case Ok(outcome) => result == Ok(outcome.0) && after == outcome.1
    case Err(error) => result == Err(error)
  }

  class CompanyDiscoveryStagingService {
    const tables: Tables

    constructor (tables: Tables)
      ensures this.tables == tables
    {
      this.tables := tables;
    }

    method Run(profile: Profile, raw: Option<string>, generated: QueryPreview, replies: nat -> Reply, dryRun: bool,
               repository: CompanyDiscoveryStagingRepository?, requireSingleQuery: bool)
      returns (result: Result<RunReport, StagingError>)
      requires repository != null ==> repository.tables == tables
      modifies if repository != null && !dryRun then {repository.session} else {}
      ensures !dryRun && repository == null ==> result == Err(MissingRepository)
      ensures dryRun || repository != null ==>
        match RevalidatePreview(tables, profile, generated)
        case Invalid => result == Err(ProfileExecutionError)
        case Valid(preview) =>
          var verdict := Judge(tables, profile, raw, preview, replies);
          if requireSingleQuery && |preview.queries| != 1 then result == Err(NotOneQuery)
          else if dryRun then result == StageDry(tables, profile, preview, verdict)
          else Leaves(result, repository.session.View(),
                      StagePersisted(tables, profile, preview, verdict, old(repository.session.View())))
    {
      if !dryRun && repository == null {
        return Err(MissingRepository);
      }
      var validated := RevalidateQueryPreview(tables, profile, generated);
      if validated.Invalid? {
        return Err(ProfileExecutionError);
      }
      var preview := validated.value;
      assert preview.queryCount == preview.estimatedProviderRequests == |preview.queries|;
      if requireSingleQuery
        && (preview.queryCount != 1 || preview.estimatedProviderRequests != 1 || |preview.queries| != 1) {
        return Err(NotOneQuery);
      }
      var verdict := CallProvider(profile, raw, preview, replies);
      if dryRun {
        result := ReportDry(profile, preview, verdict);
      } else {
        result := ReportPersisted(profile, preview, verdict, repository);
      }
    }

    method CallProvider(profile: Profile, raw: Option<string>, preview: QueryPreview, replies: nat -> Reply)
      returns (verdict: Verdict)
      ensures verdict == Judge(tables, profile, raw, preview, replies)
    {
      var provider := ResolveProviderName(raw);
      if provider.None? {
        return Fail(INVALID_PROVIDER, ConfigurationError);
      }
      var execution := ExecuteDry(tables, profile, raw.value, preview, replies);
      match execution {
        case Err(ControlledError) => verdict := Raise(ProfileExecutionError);
        case Err(UnexpectedError) => verdict := Fail(provider.value, ExecutionFailed);
        case Ok(r) =>
          if ValidDryRun(r) && MatchesPlan(profile, provider.value, preview, r) {
            verdict := Proceed(provider.value, r);
          } else {
            verdict := Fail(provider.value, ExecutionInvalid);
          }
      }
    }

    method ReportDry(profile: Profile, preview: QueryPreview, verdict: Verdict)
      returns (result: Result<RunReport, StagingError>)
      ensures result == StageDry(tables, profile, preview, verdict)
    {
      if verdict.Raise? {
        return Err(verdict.error);
      }
      if verdict.Fail? {
        if !SnapshotOk(profile, preview) {
          return Err(InvalidSnapshot);
        }
        return BuildResult(FailedReport(profile, verdict.provider, preview, verdict.code, None));
      }
      var rows, rejections := CollectRows(profile, verdict.provider, verdict.r);
      if !SnapshotOk(profile, preview) {
        return Err(InvalidSnapshot);
      }
      var cards := CandidatePreviews(tables, rows);
      if cards.Invalid? {
        return Err(UnshowableCandidate);
      }
      result := BuildResult(
        StagedReport(profile, verdict.provider, verdict.r, rows, rejections, None, Counts(0, 0, 0, 0), cards.value));
    }

    method ReportPersisted(profile: Profile, preview: QueryPreview, verdict: Verdict,
                           repository: CompanyDiscoveryStagingRepository)
      returns (result: Result<RunReport, StagingError>)
      requires repository.tables == tables
      modifies repository.session
      ensures Leaves(result, repository.session.View(),
                     StagePersisted(tables, profile, preview, verdict, old(repository.session.View())))
    {
      if verdict.Raise? {
        return Err(verdict.error);
      }
      if !SnapshotOk(profile, preview) {
        return Err(InvalidSnapshot);
      }
      if verdict.Fail? {
        var failed, runId, _ := Persist(profile, 0, Some(verdict.code), Failed, Some(verdict.code), None, [],
                                        repository);
        return if failed then Err(PersistenceSubstage)
               else BuildResult(FailedReport(profile, verdict.provider, preview, verdict.code, Some(runId)));
      }
      var rows, rejections := CollectRows(profile, verdict.provider, verdict.r);
      var (status, code) := EvaluateStatus(verdict.r, |rows|, rejections);
      var failed, runId, counts := Persist(profile, verdict.r.totalProviderResults, None, status, code,
                                           FirstDiagnostic(verdict.r.queryResults), RowsToStore(status, rows),
                                           repository);
      if failed {
        return Err(PersistenceSubstage);
      }
      var cards := CandidatePreviews(tables, rows);
      if cards.Invalid? {
        return Err(UnshowableCandidate);
      }
      result := BuildResult(
        StagedReport(profile, verdict.provider, verdict.r, rows, rejections, Some(runId), counts, cards.value));
    }

    method CollectRows(profile: Profile, provider: string, r: DryRun) returns (rows: seq<Row>, rejections: nat)
      ensures rows == RowsOf(tables, profile, provider, r)
      ensures rejections == Rejections(tables, profile.projectId, provider, r.queryResults)
    {
      var order, rejected := AdaptAndDeduplicateCandidates(tables, profile.projectId, provider, r.queryResults);
      rejections := rejected;
      rows := [];
      for i := 0 to |order|
        invariant |rows| == i && forall k :: 0 <= k < i ==> rows[k] == order[k].View()
      {
        rows := rows + [order[i].View()];
      }
    }

    method Persist(profile: Profile, resultCount: nat, initialCode: Option<ErrorCode>, status: RunStatus,
                   code: Option<ErrorCode>, diagnostic: Option<Diagnostic>, rows: seq<Row>,
                   repository: CompanyDiscoveryStagingRepository)
      returns (failed: bool, runId: nat, counts: Counts)
      requires repository.tables == tables
      modifies repository.session
      ensures match PersistRun(tables, old(repository.session.View()), profile, resultCount, initialCode, status, code,
                               diagnostic, rows)
        case Err(_) => failed
        case Ok(persisted) =>
          && !failed && runId == old(repository.session.nextRun)
          && counts == persisted.1 && repository.session.View() == persisted.0
    {
      failed, runId, counts := true, 0, Counts(0, 0, 0, 0);
      var run := repository.CreateRun(profile.projectId, Some(profile.id), resultCount, initialCode);
      if run.Err? {
        return;
      }
      runId := run.value;
      failed, counts := PersistRows(profile.projectId, runId, rows, repository);
      if failed {
        return;
      }
      var updated := repository.UpdateRun(runId, status, resultCount, counts.upserts, code, diagnostic);
      failed := updated.Err?;
    }

    method PersistRows(projectId: nat, runId: nat, rows: seq<Row>, repository: CompanyDiscoveryStagingRepository)
      returns (failed: bool, counts: Counts)
      requires repository.tables == tables
      modifies repository.session
      ensures match UpsertCounted(tables, old(repository.session.View()), projectId, runId, RowPayloads(rows, runId))
        case Err(_) => failed
        case Ok(staged) => !failed && counts == staged.1 && repository.session.View() == staged.0
    {
      failed, counts := false, Counts(0, 0, 0, 0);
      ghost var s := repository.session.View();
      var payloads := RowPayloads(rows, runId);
      for i := 0 to |payloads|
        invariant UpsertCounted(tables, s, projectId, runId, payloads[..i]) == Ok((repository.session.View(), counts))
      {
        assert payloads[..i + 1][..i] == payloads[..i];
        var upserted := repository.UpsertCandidate(projectId, runId, payloads[i]);
        if upserted.Err? {
          UpsertStopsAt(tables, s, projectId, runId, payloads, i + 1);
          return true, counts;
        }
        counts := CountUpsert(counts, upserted.value);
      }
      assert payloads[..|payloads|] == payloads;
    }
  }

  lemma {:induction false} UpsertStopsAt(t: Tables, s: Store, projectId: nat, runId: nat,
                                         payloads: seq<CandidateCreate>, n: nat)
    requires n <= |payloads| && UpsertCounted(t, s, projectId, runId, payloads[..n]).Err?
    ensures UpsertCounted(t, s, projectId, runId, payloads).Err?
    decreases |payloads|
  {
    if n < |payloads| {
      assert payloads[..|payloads| - 1][..n] == payloads[..n];
      UpsertStopsAt(t, s, projectId, runId, payloads[..|payloads| - 1], n);
    } else {
      assert payloads[..n] == payloads;
    }
  }

  // ----- What a staging run guarantees ----------------------------------------------------------------------

  lemma {:induction false} RowsAreWellFormed(t: Tables, projectId: nat, items: seq<Adapted>)
    requires forall a :: a in items ==> WellAdapted(t, projectId, a)
    ensures forall row :: row in Deduplicate(items) ==> WellFormedRow(t, projectId, row)
  {
    if |items| != 0 {
      var n := |items| - 1;
      RowsAreWellFormed(t, projectId, items[..n]);
      assert items[n] in items;
      var rows := Deduplicate(items[..n]);
      match IndexOf(Sightings(rows), items[n].normalized.identityKey)
      case None =>
      case Some(i) =>
        assert rows[i] in rows;
        FillKeepsNormalForm(t, rows[i].sighting.fields, items[n].normalized);
    }
  }

  lemma {:induction false} AdaptedAreWellFormed(t: Tables, projectId: nat, provider: string, results: seq<QueryResult>)
    requires t.Lawful()
    ensures forall a :: a in AdaptAll(t, projectId, provider, results) ==> WellAdapted(t, projectId, a)
  {
    if |results| != 0 {
      AdaptedAreWellFormed(t, projectId, provider, results[..|results| - 1]);
      var last := results[|results| - 1];
      AcceptedAreWellFormed(t, projectId, provider, last.query, last.items);
    }
  }

  lemma RowsOfAreWellFormed(t: Tables, profile: Profile, provider: string, r: DryRun)
    requires t.Lawful()
    ensures forall row :: row in RowsOf(t, profile, provider, r) ==> WellFormedRow(t, profile.projectId, row)
  {
    AdaptedAreWellFormed(t, profile.projectId, provider, r.queryResults);
    RowsAreWellFormed(t, profile.projectId, AdaptAll(t, profile.projectId, provider, r.queryResults));
  }

  lemma CardsExactlyWhenPresentable(t: Tables, projectId: nat, rows: seq<Row>)
    requires t.Lawful() && forall row :: row in rows ==> WellFormedRow(t, projectId, row)
    ensures CandidatePreviews(t, rows).Valid? <==> forall row :: row in rows ==> Presentable(t, row)
    ensures CandidatePreviews(t, rows).Valid? ==> |CandidatePreviews(t, rows).value| == |rows|
  {
    forall row | row in rows
      ensures CandidatePreview(t, row).Valid? <==> Presentable(t, row)
    {
      CardExactlyWhenPresentable(t, projectId, row);
    }
    CardsFromEach(t, rows);
  }

  lemma CardsFromEach(t: Tables, rows: seq<Row>)
    ensures CandidatePreviews(t, rows).Valid? <==> forall row :: row in rows ==> CandidatePreview(t, row).Valid?
    ensures CandidatePreviews(t, rows).Valid? ==> |CandidatePreviews(t, rows).value| == |rows|
  {
    var each := seq(|rows|, i requires 0 <= i < |rows| => CandidatePreview(t, rows[i]));
    AllValidExactlyWhen(each);
    assert forall i :: 0 <= i < |rows| ==> each[i] == CandidatePreview(t, rows[i]) && rows[i] in rows;
  }

  lemma RowsUpsert(t: Tables, s: Store, projectId: nat, runId: nat, rows: seq<Row>)
    requires runId in s.runs && s.runs[runId].projectId == projectId
    requires forall row :: row in rows ==> WellFormedRow(t, projectId, row)
    ensures UpsertAll(t, s, projectId, runId, RowPayloads(rows, runId)).Ok? <==>
      forall row :: row in rows ==> Restage(t, row.sighting.fields).Valid?
    ensures UpsertAll(t, s, projectId, runId, RowPayloads(rows, runId)).Ok? ==>
      runId in UpsertAll(t, s, projectId, runId, RowPayloads(rows, runId)).value.runs
  {
    var payloads, xs := RowPayloads(rows, runId), Sightings(rows);
    assert EachCutFrom(payloads, projectId, runId, xs) by {
      assert forall i :: 0 <= i < |rows| ==> rows[i] in rows;
    }
    UpsertsExactlyWhenRestageable(t, s, projectId, runId, payloads, xs);
    RestageableRows(t, rows);
  }

  /**
   A run is stored exactly when the repository takes it, every row normalises once more and the closing update
   takes the diagnostic.
   */
  lemma PersistsExactlyWhenRestageable(t: Tables, s: Store, profile: Profile, resultCount: nat,
                                       initialCode: Option<ErrorCode>, status: RunStatus, code: Option<ErrorCode>,
                                       diagnostic: Option<Diagnostic>, rows: seq<Row>)
    requires forall row :: row in rows ==> WellFormedRow(t, profile.projectId, row)
    ensures PersistRun(t, s, profile, resultCount, initialCode, status, code, diagnostic, rows).Ok? <==>
      && DiscoveryTables.CreateRun(s, profile.projectId, Some(profile.id), resultCount, initialCode).Ok?
      && StorableDiagnostic(diagnostic)
      && forall row :: row in rows ==> Restage(t, row.sighting.fields).Valid?
    ensures PersistRun(t, s, profile, resultCount, initialCode, status, code, diagnostic, rows).Ok? ==>
      PersistRun(t, s, profile, resultCount, initialCode, status, code, diagnostic, rows).value.1.upserts == |rows|
  {
    var creation := DiscoveryTables.CreateRun(s, profile.projectId, Some(profile.id), resultCount, initialCode);
    if creation.Ok? {
      CountingKeepsTheStore(t, creation.value, profile.projectId, s.nextRun, RowPayloads(rows, s.nextRun));
      RowsUpsert(t, creation.value, profile.projectId, s.nextRun, rows);
    }
  }

  /** The rows of a run that proceeds can all be stored and shown. */
  predicate AllPresentable(t: Tables, profile: Profile, verdict: Verdict) {
    verdict.Proceed? ==> forall row :: row in RowsOf(t, profile, verdict.provider, verdict.r) ==> Presentable(t, row)
  }

  lemma RowsNeedItems(t: Tables, projectId: nat, provider: string, results: seq<QueryResult>)
    ensures |Deduplicate(AdaptAll(t, projectId, provider, results))| > 0 ==>
      exists k :: 0 <= k < |results| && results[k].items != []
  {
    DeduplicateCompacts(AdaptAll(t, projectId, provider, results));
    if forall k :: 0 <= k < |results| ==> results[k].items == [] {
      NothingIsAdapted(t, projectId, provider, results);
    }
  }

  lemma {:induction false} NothingIsAdapted(t: Tables, projectId: nat, provider: string, results: seq<QueryResult>)
    requires forall k :: 0 <= k < |results| ==> results[k].items == []
    ensures AdaptAll(t, projectId, provider, results) == []
  {
    if |results| != 0 {
      NothingIsAdapted(t, projectId, provider, results[..|results| - 1]);
    }
  }

  /** The status of a run that proceeds: rows are persisted exactly by the statuses that admit any. */
  lemma VerdictStatus(t: Tables, profile: Profile, raw: Option<string>, preview: QueryPreview, replies: nat -> Reply,
                      provider: string, r: DryRun, rows: seq<Row>, rejections: nat)
    requires t.Lawful() && RevalidatePreview(t, profile, preview) == Valid(preview)
    requires Judge(t, profile, raw, preview, replies) == Proceed(provider, r) && rows == RowsOf(t, profile, provider, r)
    ensures Walked(r) && r.executedQueries <= r.queryCount && (r.stoppedEarly <==> r.stopReason.Some?)
    ensures Collapse(provider) == provider && provider != "" && !HasMarkup(provider) && |provider| <= 100
    ensures var (status, code) := EvaluateStatus(r, |rows|, rejections);
      && (Persists(status) || |rows| == 0) && status != Pending
      && (code.None? <==> status == Succeeded || status == NotFound)
  {
    RunDryWalks(t, profile, raw.value, preview, replies, r);
    RowsNeedItems(t, profile.projectId, provider, r.queryResults);
    StatusMeaning(r, |rows|, rejections);
    ProviderNameIsClean(raw, provider);
    var (status, code) := EvaluateStatus(r, |rows|, rejections);
    if |rows| > 0 {
      var k :| 0 <= k < |r.queryResults| && r.queryResults[k].items != [];
      assert r.queryResults[k].providerError.None?;
    }
  }

  lemma ProviderNameIsClean(raw: Option<string>, provider: string)
    requires ResolveProviderName(raw) == Some(provider)
    ensures Collapse(provider) == provider && provider != "" && !HasMarkup(provider) && |provider| <= 100
  {
    CollapseIsNormal(Strip(raw.value));
  }

  // A report's provider name, counts, status and error code, as the validator looks at them.

  predicate CleanName(provider: string) {
    Collapse(Strip(provider)) != "" && !HasMarkup(Collapse(Strip(provider))) && |provider| <= 100
  }

  predicate ProceedShape(t: Tables, provider: string, r: DryRun, rows: seq<Row>, rejections: nat) {
    var (status, code) := EvaluateStatus(r, |rows|, rejections);
    && CleanName(provider)
    && (CandidatePreviews(t, rows).Valid? ==> |CandidatePreviews(t, rows).value| == |rows|)
    && |rows| + Duplicates(rows) + rejections == ItemCount(r.queryResults)
    && (Persists(status) || |rows| == 0) && status != Pending
    && (code.None? <==> status == Succeeded || status == NotFound)
    && r.executedQueries <= r.queryCount && (r.stoppedEarly <==> r.stopReason.Some?)
  }

  lemma InvalidProviderIsClean()
    ensures IsNormal(INVALID_PROVIDER) && !HasMarkup(INVALID_PROVIDER) && |INVALID_PROVIDER| == 16
  {
    var s := INVALID_PROVIDER;
    assert forall i :: 0 <= i < 16 ==> 'a' <= s[i] <= 'z' || s[i] == '-';
  }

  lemma NormalNameIsClean(provider: string)
    requires Collapse(provider) == provider && provider != "" && !HasMarkup(provider) && |provider| <= 100
    ensures CleanName(provider)
  {
    CollapseOfStrip(provider);
  }

  lemma FailureNameIsClean(t: Tables, profile: Profile, raw: Option<string>, preview: QueryPreview,
                           replies: nat -> Reply, provider: string, code: ErrorCode)
    requires Judge(t, profile, raw, preview, replies) == Fail(provider, code)
    ensures CleanName(provider)
  {
    FailureNames(t, profile, raw, preview, replies, provider, code);
    if ResolveProviderName(raw).Some? {
      ProviderNameIsClean(raw, provider);
    } else {
      InvalidProviderIsClean();
      NormalIsFixed(INVALID_PROVIDER);
    }
    NormalNameIsClean(provider);
  }

  lemma FailureNames(t: Tables, profile: Profile, raw: Option<string>, preview: QueryPreview,
                     replies: nat -> Reply, provider: string, code: ErrorCode)
    requires Judge(t, profile, raw, preview, replies) == Fail(provider, code)
    ensures match ResolveProviderName(raw) case None => provider == INVALID_PROVIDER case Some(name) => provider == name
  {
  }

  lemma ProceedHasShape(t: Tables, profile: Profile, raw: Option<string>, preview: QueryPreview,
                        replies: nat -> Reply, provider: string, r: DryRun, rows: seq<Row>, rejections: nat)
    requires t.Lawful() && RevalidatePreview(t, profile, preview) == Valid(preview)
    requires Judge(t, profile, raw, preview, replies) == Proceed(provider, r) && rows == RowsOf(t, profile, provider, r)
    requires rejections == Rejections(t, profile.projectId, provider, r.queryResults)
    ensures ProceedShape(t, provider, r, rows, rejections)
  {
    RowsOfAreWellFormed(t, profile, provider, r);
    CardsExactlyWhenPresentable(t, profile.projectId, rows);
    VerdictStatus(t, profile, raw, preview, replies, provider, r, rows, rejections);
    CandidateConservation(t, profile.projectId, provider, r.queryResults, rejections);
    CollapseOfStrip(provider);
  }

  /** What the report's own fields ask of the profile: positive ids and a name that is neither blank nor too long. */
  predicate Reportable(profile: Profile) {
    profile.projectId > 0 && profile.id > 0 && Collapse(Strip(profile.name)) != "" && |profile.name| <= 255
  }

  /**
   The profile service stores stripped, non-empty names of at most 255 characters, so its profiles can be
   reported on.
   */
  lemma StoredProfilesAreReportable(profile: Profile, given: string)
    requires profile.id > 0 && profile.projectId > 0
    requires profile.name == Strip(given) && profile.name != "" && |profile.name| <= 255
    ensures Reportable(profile)
  {
    LStripShape(given);
    RStripShape(LStrip(given));
    CollapseKeepsCharacters(profile.name);
    CollapseOfStrip(profile.name);
  }

  lemma FailedReportIsValid(profile: Profile, provider: string, preview: QueryPreview, code: ErrorCode,
                            runId: Option<nat>)
    requires CleanName(provider) && (runId.Some? ==> runId.value > 0)
    ensures ValidRunReport(FailedReport(profile, provider, preview, code, runId)) <==> Reportable(profile)
  {
  }

  lemma StagedReportIsValid(t: Tables, profile: Profile, provider: string, r: DryRun, rows: seq<Row>, rejections: nat,
                            runId: Option<nat>, counts: Counts)
    requires ProceedShape(t, provider, r, rows, rejections) && CandidatePreviews(t, rows).Valid?
    requires if runId.None? then counts == Counts(0, 0, 0, 0)
             else
               && runId.value > 0 && counts.upserts == |rows|
               && counts.created + counts.updated <= |rows| && counts.isProtected <= |rows|
    ensures ValidRunReport(StagedReport(profile, provider, r, rows, rejections, runId, counts,
                                        CandidatePreviews(t, rows).value))
       <==> Reportable(profile)
  {
  }

  lemma PersistedCounts(t: Tables, s: Store, profile: Profile, resultCount: nat, initialCode: Option<ErrorCode>,
                        status: RunStatus, code: Option<ErrorCode>, diagnostic: Option<Diagnostic>, rows: seq<Row>)
    requires PersistRun(t, s, profile, resultCount, initialCode, status, code, diagnostic, rows).Ok?
    ensures var counts := PersistRun(t, s, profile, resultCount, initialCode, status, code, diagnostic, rows).value.1;
      counts.upserts == |rows| && counts.created + counts.updated <= |rows| && counts.isProtected <= |rows|
  {
  }

  // The first failing query, by its reply. Its diagnostic is the one the run update is given.

  predicate FirstFailureAt(replies: nat -> Reply, k: nat) {
    replies(k).Failure? && forall j :: 0 <= j < k ==> !replies(j).Failure?
  }

  /** The first failure among the queries of the plan has a diagnostic that a run update takes. */
  predicate FirstFailureIsStorable(replies: nat -> Reply, queryCount: nat) {
    forall k :: 0 <= k < queryCount && FirstFailureAt(replies, k) ==>
      StorableDiagnostic(KeptDiagnostic(replies(k).code, replies(k).diagnostic))
  }

  lemma EarliestFailure(replies: nat -> Reply, k: nat) returns (first: nat)
    requires replies(k).Failure?
    ensures first <= k && FirstFailureAt(replies, first)
  {
    if j :| 0 <= j < k && replies(j).Failure? {
      first := EarliestFailure(replies, j);
    } else {
      first := k;
    }
  }

  predicate FirstErrorAt(results: seq<QueryResult>, k: nat) {
    && k < |results| && results[k].providerError.Some?
    && forall j :: 0 <= j < k ==> results[j].providerError.None?
  }

  lemma {:induction false} FirstDiagnosticAt(results: seq<QueryResult>)
    ensures (forall k :: 0 <= k < |results| ==> results[k].providerError.None?) ==> FirstDiagnostic(results) == None
    ensures forall k :: 0 <= k < |results| && FirstErrorAt(results, k) ==>
      FirstDiagnostic(results) == results[k].diagnostic && FirstProviderError(results) == results[k].providerError
  {
    if |results| != 0 {
      var rest := results[1..];
      FirstDiagnosticAt(rest);
      assert forall k :: 0 < k < |results| ==> results[k] == rest[k - 1];
      forall k | 0 < k < |results| && FirstErrorAt(results, k)
        ensures FirstErrorAt(rest, k - 1)
      {
        assert forall j :: 0 <= j < k - 1 ==> rest[j] == results[j + 1];
      }
    }
  }

  /** The walk always reaches the first failing query, so what it reports can be read off the replies. */
  lemma DiagnosticOfReplies(queries: seq<SearchQuery>, provider: string, replies: nat -> Reply,
                            results: seq<QueryResult>)
    requires FollowsPlan(queries, provider, replies, 0, results)
    ensures StorableDiagnostic(FirstDiagnostic(results)) <==> FirstFailureIsStorable(replies, |queries|)
  {
    if k :| 0 <= k < |results| && replies(k).Failure? {
      var first := EarliestFailure(replies, k);
      FirstFailureIsReported(queries, provider, replies, results, first);
      assert forall j :: 0 <= j < |queries| && FirstFailureAt(replies, j) ==> j == first;
    } else {
      NoFailureIsReported(queries, provider, replies, results);
    }
  }

  lemma FirstFailureIsReported(queries: seq<SearchQuery>, provider: string, replies: nat -> Reply,
                               results: seq<QueryResult>, first: nat)
    requires FollowsPlan(queries, provider, replies, 0, results) && first < |results| && FirstFailureAt(replies, first)
    ensures FirstDiagnostic(results) == KeptDiagnostic(replies(first).code, replies(first).diagnostic)
    ensures FirstProviderError(results) == Some(replies(first).code)
  {
    forall k | 0 <= k < first
      ensures results[k].providerError.None?
    {
      assert results[k] == QueryOutcome(queries[k], provider, replies(k));
    }
    assert results[first] == QueryOutcome(queries[first], provider, replies(first));
    assert FirstErrorAt(results, first);
    FirstDiagnosticAt(results);
  }

  lemma NoFailureIsReported(queries: seq<SearchQuery>, provider: string, replies: nat -> Reply,
                            results: seq<QueryResult>)
    requires FollowsPlan(queries, provider, replies, 0, results)
    requires forall k :: 0 <= k < |results| ==> !replies(k).Failure?
    ensures FirstDiagnostic(results) == None && |results| == |queries|
  {
    forall k | 0 <= k < |results|
      ensures results[k].providerError.None?
    {
      assert results[k] == QueryOutcome(queries[k], provider, replies(k));
    }
    FirstDiagnosticAt(results);
  }

  /**
   A dry staging run reports exactly when the profile can be executed and reported on, the snapshot is within its
   bounds and every row can be shown; a persisted one exactly when also the repository takes the run and the
   diagnostic of the first failing query. The rules over the counts of a report never refuse it.
   */
  lemma ReportsExactlyWhenPresentable(t: Tables, profile: Profile, raw: Option<string>, preview: QueryPreview,
                                      replies: nat -> Reply, s: Store, verdict: Verdict)
    requires t.Lawful() && RevalidatePreview(t, profile, preview) == Valid(preview)
    requires verdict == Judge(t, profile, raw, preview, replies)
    ensures StageDry(t, profile, preview, verdict).Ok? <==>
      !verdict.Raise? && SnapshotOk(profile, preview) && Reportable(profile) && AllPresentable(t, profile, verdict)
    ensures StagePersisted(t, profile, preview, verdict, s).Ok? <==>
      && StageDry(t, profile, preview, verdict).Ok? && s.nextRun > 0
      && DiscoveryTables.CreateRun(s, profile.projectId, Some(profile.id), 0, None).Ok?
      && (verdict.Proceed? ==> FirstFailureIsStorable(replies, |preview.queries|))
  {
    match verdict
    case Raise(_) =>
    case Fail(provider, code) =>
      FailureNameIsClean(t, profile, raw, preview, replies, provider, code);
      FailureReports(t, profile, preview, provider, code, s);
    case Proceed(provider, r) =>
      var rows := RowsOf(t, profile, provider, r);
      var rejections := Rejections(t, profile.projectId, provider, r.queryResults);
      RowsOfAreWellFormed(t, profile, provider, r);
      CardsExactlyWhenPresentable(t, profile.projectId, rows);
      ProceedHasShape(t, profile, raw, preview, replies, provider, r, rows, rejections);
      ProceedReports(t, profile, preview, provider, r, s, rows, rejections);
      RunDryGuarantees(t, profile, raw.value, preview, replies, preview, r);
      DiagnosticOfReplies(preview.queries, Strip(raw.value), replies, r.queryResults);
  }

  /** Every diagnostic a provider gives has a status only with a client error. */
  ghost predicate KeepsDiagnosticRule(replies: nat -> Reply) {
    forall k :: replies(k).Failure? ==> StorableDiagnostic(replies(k).diagnostic)
  }

  /** With a provider that gives a status only for client errors, no diagnostic stands in the way of a run. */
  lemma RuleKeepersReport(t: Tables, profile: Profile, raw: Option<string>, preview: QueryPreview,
                          replies: nat -> Reply, s: Store, verdict: Verdict)
    requires t.Lawful() && RevalidatePreview(t, profile, preview) == Valid(preview)
    requires verdict == Judge(t, profile, raw, preview, replies)
    requires KeepsDiagnosticRule(replies)
    ensures StagePersisted(t, profile, preview, verdict, s).Ok? <==>
      && StageDry(t, profile, preview, verdict).Ok? && s.nextRun > 0
      && DiscoveryTables.CreateRun(s, profile.projectId, Some(profile.id), 0, None).Ok?
  {
    ReportsExactlyWhenPresentable(t, profile, raw, preview, replies, s, verdict);
  }

  // A plan of one query whose provider reports a transport error with a status.

  const ONE_QUERY := SearchQuery("q", 1, "p", None, None)
  const ONE_QUERY_PLAN := QueryPreview(1, "p", 1, 1, 10, 10, [ONE_QUERY])
  const ONE_QUERY_PROFILE := Profile(1, 1, "p", true)
  const STATUS_OF_TRANSPORT := Diagnostic(Transport, Some(404))
  const ONE_PROJECT := Store(map[1 := 1], {1}, map[], 1, map[], 1, map[], 1)

  const TRANSPORT_FAILURE :=
    QueryResult(ONE_QUERY, "p", 0, 0, 0, Some(RequestError), Some(STATUS_OF_TRANSPORT), [], 0)

  lemma OneQueryPlanIsValid(t: Tables)
    ensures RevalidatePreview(t, ONE_QUERY_PROFILE, ONE_QUERY_PLAN) == Valid(ONE_QUERY_PLAN)
  {
    var queries := [ONE_QUERY];
    assert queries[..|queries| - 1] == [];
    assert RevalidateQueries(t, queries[..|queries| - 1]) == Valid([]);
    assert RevalidateQuery(t, queries[|queries| - 1]) == Valid(ONE_QUERY);
    assert [] + [ONE_QUERY] == queries;
    assert RevalidateQueries(t, queries) == Valid(queries);
    assert RevalidateQueries(t, ONE_QUERY_PLAN.queries) == Valid(ONE_QUERY_PLAN.queries);
  }

  lemma OneLetterNames()
    ensures Collapse("p") == "p" && Strip("p") == "p" && !HasMarkup("p")
  {
    NormalIsFixed("p");
  }

  lemma OneFailureCounts(results: seq<QueryResult>)
    requires results == [TRANSPORT_FAILURE]
    ensures ProviderResults(results) == AdaptedItems(results) == AdapterErrors(results) == 0
    ensures ProviderErrors(results) == 1 && SuccessfulQueries(results) == 0 && StopReason(results).None?
    ensures FirstProviderError(results) == Some(RequestError)
    ensures FirstDiagnostic(results) == Some(STATUS_OF_TRANSPORT)
  {
    assert results[..0] == [];
  }

  lemma OneFailureIsWalked(replies: nat -> Reply)
    requires replies(0) == Failure(RequestError, Some(STATUS_OF_TRANSPORT))
    ensures Walk([ONE_QUERY], "p", replies, 0) == Some([TRANSPORT_FAILURE])
  {
    var rest := Walk([ONE_QUERY], "p", replies, 1);
    assert rest == Some([]);
    assert [TRANSPORT_FAILURE] + [] == [TRANSPORT_FAILURE];
  }

  function OneFailure(): DryRun {
    DryRun(1, "p", "p", 1, 1, 1, 0, 0, 0, 1, 10, false, None, [TRANSPORT_FAILURE])
  }

  lemma OneFailureProceeds(t: Tables, replies: nat -> Reply)
    requires replies(0) == Failure(RequestError, Some(STATUS_OF_TRANSPORT))
    ensures Judge(t, ONE_QUERY_PROFILE, Some("p"), ONE_QUERY_PLAN, replies) == Proceed("p", OneFailure())
  {
    OneQueryPlanIsValid(t);
    OneLetterNames();
    OneFailureIsWalked(replies);
    OneFailureCounts([TRANSPORT_FAILURE]);
    assert ValidDryRun(OneFailure());
    assert MatchesPlan(ONE_QUERY_PROFILE, "p", ONE_QUERY_PLAN, OneFailure());
  }

  lemma OneFailureIsReportedDry(t: Tables)
    ensures StageDry(t, ONE_QUERY_PROFILE, ONE_QUERY_PLAN, Proceed("p", OneFailure())).Ok?
  {
    OneFailureCounts([TRANSPORT_FAILURE]);
    OneLetterNames();
    NothingIsAdapted(t, 1, "p", OneFailure().queryResults);
  }

  /** Its dry run reports, but a persisted run raises when it closes: the update takes no status for that subtype. */
  lemma StatusOfTransportErrorIsRefused(t: Tables, replies: nat -> Reply)
    requires replies(0) == Failure(RequestError, Some(STATUS_OF_TRANSPORT))
    ensures var verdict := Judge(t, ONE_QUERY_PROFILE, Some("p"), ONE_QUERY_PLAN, replies);
      && StageDry(t, ONE_QUERY_PROFILE, ONE_QUERY_PLAN, verdict).Ok?
      && StagePersisted(t, ONE_QUERY_PROFILE, ONE_QUERY_PLAN, verdict, ONE_PROJECT) == Err(PersistenceSubstage)
  {
    OneFailureProceeds(t, replies);
    OneFailureIsReportedDry(t);
    OneFailureCounts([TRANSPORT_FAILURE]);
    NothingIsAdapted(t, 1, "p", OneFailure().queryResults);
    var rejections := Rejections(t, 1, "p", OneFailure().queryResults);
    assert PersistStaged(t, ONE_PROJECT, ONE_QUERY_PROFILE, OneFailure(), [], rejections) == Err(InvalidValue);
  }

  lemma FailureReports(t: Tables, profile: Profile, preview: QueryPreview, provider: string, code: ErrorCode, s: Store)
    requires CleanName(provider)
    ensures StageDry(t, profile, preview, Fail(provider, code)).Ok?
      <==> SnapshotOk(profile, preview) && Reportable(profile)
    ensures StagePersisted(t, profile, preview, Fail(provider, code), s).Ok? <==>
      && StageDry(t, profile, preview, Fail(provider, code)).Ok? && s.nextRun > 0
      && DiscoveryTables.CreateRun(s, profile.projectId, Some(profile.id), 0, None).Ok?
  {
    PersistsExactlyWhenRestageable(t, s, profile, 0, Some(code), Failed, Some(code), None, []);
    FailedReportIsValid(profile, provider, preview, code, None);
    if s.nextRun > 0 {
      FailedReportIsValid(profile, provider, preview, code, Some(s.nextRun));
    }
  }

  /** Storing the rows of a run that can be shown. */
  lemma ShownRowsPersist(t: Tables, profile: Profile, r: DryRun, s: Store, rows: seq<Row>, rejections: nat)
    requires forall row :: row in rows ==> WellFormedRow(t, profile.projectId, row) && Presentable(t, row)
    ensures PersistStaged(t, s, profile, r, rows, rejections).Ok? <==>
      && DiscoveryTables.CreateRun(s, profile.projectId, Some(profile.id), r.totalProviderResults, None).Ok?
      && StorableDiagnostic(FirstDiagnostic(r.queryResults))
  {
    var (status, code) := EvaluateStatus(r, |rows|, rejections);
    PersistsExactlyWhenRestageable(t, s, profile, r.totalProviderResults, None, status, code,
                                   FirstDiagnostic(r.queryResults), RowsToStore(status, rows));
  }

  lemma ProceedReports(t: Tables, profile: Profile, preview: QueryPreview, provider: string, r: DryRun, s: Store,
                       rows: seq<Row>, rejections: nat)
    requires rows == RowsOf(t, profile, provider, r)
    requires rejections == Rejections(t, profile.projectId, provider, r.queryResults)
    requires forall row :: row in rows ==> WellFormedRow(t, profile.projectId, row)
    requires CandidatePreviews(t, rows).Valid? <==> forall row :: row in rows ==> Presentable(t, row)
    requires ProceedShape(t, provider, r, rows, rejections)
    ensures StageDry(t, profile, preview, Proceed(provider, r)).Ok? <==>
      SnapshotOk(profile, preview) && Reportable(profile) && forall row :: row in rows ==> Presentable(t, row)
    ensures StagePersisted(t, profile, preview, Proceed(provider, r), s).Ok? <==>
      && StageDry(t, profile, preview, Proceed(provider, r)).Ok? && s.nextRun > 0
      && DiscoveryTables.CreateRun(s, profile.projectId, Some(profile.id), 0, None).Ok?
      && StorableDiagnostic(FirstDiagnostic(r.queryResults))
  {
    if CandidatePreviews(t, rows).Valid? {
      ShownRowsPersist(t, profile, r, s, rows, rejections);
    }
    ProceedReportsDry(t, profile, preview, provider, r, rows, rejections);
    ProceedPersists(t, profile, preview, provider, r, s, rows, rejections);
  }

  lemma ProceedReportsDry(t: Tables, profile: Profile, preview: QueryPreview, provider: string, r: DryRun,
                          rows: seq<Row>, rejections: nat)
    requires rows == RowsOf(t, profile, provider, r)
    requires rejections == Rejections(t, profile.projectId, provider, r.queryResults)
    requires ProceedShape(t, provider, r, rows, rejections)
    ensures StageDry(t, profile, preview, Proceed(provider, r)).Ok? <==>
      SnapshotOk(profile, preview) && Reportable(profile) && CandidatePreviews(t, rows).Valid?
  {
    if CandidatePreviews(t, rows).Valid? {
      StagedReportIsValid(t, profile, provider, r, rows, rejections, None, Counts(0, 0, 0, 0));
    }
  }

  lemma ProceedPersists(t: Tables, profile: Profile, preview: QueryPreview, provider: string, r: DryRun, s: Store,
                        rows: seq<Row>, rejections: nat)
    requires rows == RowsOf(t, profile, provider, r)
    requires rejections == Rejections(t, profile.projectId, provider, r.queryResults)
    requires CandidatePreviews(t, rows).Valid? ==>
      (PersistStaged(t, s, profile, r, rows, rejections).Ok? <==>
        && DiscoveryTables.CreateRun(s, profile.projectId, Some(profile.id), r.totalProviderResults, None).Ok?
        && StorableDiagnostic(FirstDiagnostic(r.queryResults)))
    requires ProceedShape(t, provider, r, rows, rejections)
    ensures StagePersisted(t, profile, preview, Proceed(provider, r), s).Ok? <==>
      && SnapshotOk(profile, preview) && Reportable(profile) && CandidatePreviews(t, rows).Valid? && s.nextRun > 0
      && DiscoveryTables.CreateRun(s, profile.projectId, Some(profile.id), 0, None).Ok?
      && StorableDiagnostic(FirstDiagnostic(r.queryResults))
  {
    if CandidatePreviews(t, rows).Valid? && PersistStaged(t, s, profile, r, rows, rejections).Ok? {
      StoredRunReport(t, s, profile, provider, r, rows, rejections);
    }
  }

  /** The report of a run whose rows were stored meets the rules exactly if its profile and its run id do. */
  lemma StoredRunReport(t: Tables, s: Store, profile: Profile, provider: string, r: DryRun, rows: seq<Row>,
                        rejections: nat)
    requires ProceedShape(t, provider, r, rows, rejections) && CandidatePreviews(t, rows).Valid?
    requires PersistStaged(t, s, profile, r, rows, rejections).Ok?
    ensures var counts := PersistStaged(t, s, profile, r, rows, rejections).value.1;
      && counts.upserts == |rows|
      && (ValidRunReport(StagedReport(profile, provider, r, rows, rejections, Some(s.nextRun), counts,
                                      CandidatePreviews(t, rows).value))
          <==> Reportable(profile) && s.nextRun > 0)
  {
    var (status, code) := EvaluateStatus(r, |rows|, rejections);
    PersistedCounts(t, s, profile, r.totalProviderResults, None, status, code, FirstDiagnostic(r.queryResults),
                    RowsToStore(status, rows));
    assert |RowsToStore(status, rows)| == |rows|;
    if s.nextRun > 0 {
      var counts := PersistStaged(t, s, profile, r, rows, rejections).value.1;
      StagedReportIsValid(t, profile, provider, r, rows, rejections, Some(s.nextRun), counts);
    }
  }

  lemma CleanedStaysValid(raw: RunReport)
    requires BuildResult(raw).Ok?
    ensures ValidRunReport(BuildResult(raw).value)
  {
    CollapseOfStrip(raw.profileName);
    CollapseOfStrip(raw.provider);
    CollapseIsNormal(raw.profileName);
    CollapseIsNormal(raw.provider);
    CollapseShortens(raw.profileName);
    CollapseShortens(raw.provider);
    CollapseOfStrip(Collapse(raw.profileName));
    CollapseOfStrip(Collapse(raw.provider));
  }

  /** Every dry report meets the validator, and accounts for every item: unique rows, repeats and rejections. */
  lemma DryReportsAreValid(t: Tables, profile: Profile, raw: Option<string>, preview: QueryPreview,
                           replies: nat -> Reply, verdict: Verdict, report: RunReport)
    requires t.Lawful() && RevalidatePreview(t, profile, preview) == Valid(preview)
    requires verdict == Judge(t, profile, raw, preview, replies)
    requires StageDry(t, profile, preview, verdict) == Ok(report)
    ensures ValidRunReport(report)
    ensures report.uniqueCount + report.duplicateCount + report.rejectedCount ==
            if verdict.Proceed? then ItemCount(verdict.r.queryResults) else 0
  {
    match verdict
    case Fail(provider, code) => CleanedStaysValid(FailedReport(profile, provider, preview, code, None));
    case Proceed(provider, r) =>
      var rows, rejections := RowsOf(t, profile, provider, r),
        Rejections(t, profile.projectId, provider, r.queryResults);
      ProceedHasShape(t, profile, raw, preview, replies, provider, r, rows, rejections);
      CleanedStaysValid(StagedReport(profile, provider, r, rows, rejections, None, Counts(0, 0, 0, 0),
                                     CandidatePreviews(t, rows).value));
  }

  /** Every persisted report meets the validator, names the run it created and upserted each unique row once. */
  lemma PersistedReportsAreValid(t: Tables, profile: Profile, raw: Option<string>, preview: QueryPreview,
                                 replies: nat -> Reply, s: Store, verdict: Verdict, report: RunReport, after: Store)
    requires t.Lawful() && RevalidatePreview(t, profile, preview) == Valid(preview)
    requires verdict == Judge(t, profile, raw, preview, replies)
    requires StagePersisted(t, profile, preview, verdict, s) == Ok((report, after))
    ensures ValidRunReport(report)
    ensures report.runId == Some(s.nextRun) && report.upserts == report.uniqueCount
  {
    match verdict
    case Fail(provider, code) => CleanedStaysValid(FailedReport(profile, provider, preview, code, Some(s.nextRun)));
    case Proceed(provider, r) =>
      var rows, rejections := RowsOf(t, profile, provider, r),
        Rejections(t, profile.projectId, provider, r.queryResults);
      ProceedHasShape(t, profile, raw, preview, replies, provider, r, rows, rejections);
      StoredRunReport(t, s, profile, provider, r, rows, rejections);
      var counts := PersistStaged(t, s, profile, r, rows, rejections).value.1;
      CleanedStaysValid(StagedReport(profile, provider, r, rows, rejections, Some(s.nextRun), counts,
                                     CandidatePreviews(t, rows).value));
  }

  /** The parts of a report that do not depend on whether the run was persisted. */
  function Discovery(r: RunReport): RunReport {
    r.(dryRun := true, upserts := 0, created := 0, updated := 0, isProtected := 0, runId := None, runPersisted := false)
  }

  lemma DryFailurePredicts(t: Tables, profile: Profile, preview: QueryPreview, provider: string, code: ErrorCode,
                           s: Store, dry: RunReport, persisted: RunReport, after: Store)
    requires StageDry(t, profile, preview, Fail(provider, code)) == Ok(dry)
    requires StagePersisted(t, profile, preview, Fail(provider, code), s) == Ok((persisted, after))
    ensures Discovery(persisted) == dry
  {
  }

  /** A dry run and a persisted run agree on status, error, candidate cards and every discovery counter. */
  lemma DryRunPredictsPersistedRun(t: Tables, profile: Profile, preview: QueryPreview, verdict: Verdict, s: Store,
                                   dry: RunReport, persisted: RunReport, after: Store)
    requires StageDry(t, profile, preview, verdict) == Ok(dry)
    requires StagePersisted(t, profile, preview, verdict, s) == Ok((persisted, after))
    ensures Discovery(persisted) == dry
  {
    match verdict
    case Fail(provider, code) => DryFailurePredicts(t, profile, preview, provider, code, s, dry, persisted, after);
    case Proceed(provider, r) =>
  }
}
