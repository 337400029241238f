/** A discovery run by its plan and its provider's replies: what is executed, where it stops, how it fails. */
module DiscoveryOutcomes {
  import opened Common
  import opened Text
  import opened Platform
  import opened DiscoveryTables
  import opened SearchProfileDiscovery
  import opened StagingOrchestration

  // ----- The plan -----------------------------------------------------------------------------------------

  /** The code of the country a query names. */
  function CodeOf(t: Tables, country: Option<string>): Option<string> {
    if country.None? then None else t.isoCountry(country.value)
  }

  predicate CountryIsKnown(t: Tables, query: SearchQuery) {
    query.countryCode.Some? ==> t.isoCountry(query.countryCode.value).Some?
  }

  /** A query as it is executed: the one given, with its country's code. */
  predicate Executable(t: Tables, given: SearchQuery, query: SearchQuery) {
    query == given.(countryCode := CodeOf(t, given.countryCode))
  }

  lemma {:induction false} QueriesAreKept(t: Tables, queries: seq<SearchQuery>)
    ensures RevalidateQueries(t, queries).Valid? <==>
      forall i :: 0 <= i < |queries| ==> CountryIsKnown(t, queries[i])
    ensures RevalidateQueries(t, queries).Valid? ==>
      var kept := RevalidateQueries(t, queries).value;
      |kept| == |queries| && forall i :: 0 <= i < |queries| ==> Executable(t, queries[i], kept[i])
  {
    if |queries| != 0 {
      var n := |queries| - 1;
      QueriesAreKept(t, queries[..n]);
      assert forall i :: 0 <= i < n ==> queries[..n][i] == queries[i];
    }
  }

  /**
   A plan is executed exactly when its countries are known, its counts are its number of queries and it is the
   profile's; each query is executed as it was given, with its country's code.
   */
  lemma RevalidatedExactlyWhen(t: Tables, profile: Profile, preview: QueryPreview)
    ensures RevalidatePreview(t, profile, preview).Valid? <==>
      && (forall i :: 0 <= i < |preview.queries| ==> CountryIsKnown(t, preview.queries[i]))
      && preview.queryCount == preview.estimatedProviderRequests == |preview.queries|
      && preview.profileId == profile.id && preview.profileName == profile.name
    ensures RevalidatePreview(t, profile, preview).Valid? ==>
      var kept := RevalidatePreview(t, profile, preview).value;
      && kept == preview.(queries := kept.queries) && |kept.queries| == |preview.queries|
      && forall i :: 0 <= i < |kept.queries| ==> Executable(t, preview.queries[i], kept.queries[i])
  {
    QueriesAreKept(t, preview.queries);
  }

  // ----- The walk -------------------------------------------------------------------------------------------

  predicate LeavesPlan(code: ErrorCode) {
    code in {AuthenticationError, ConfigurationError, QuotaExceeded, RateLimitError, ResponseTooLarge, ProviderError}
  }

  /** A plan is left early at every provider error but a request error and an unreadable response. */
  lemma StopsExactlyWhen(reply: Reply)
    ensures StopsAt(reply) <==> reply.Failure? && LeavesPlan(reply.code)
  {
  }

  /** The provider crashes at a query that the walk from the i-th on comes to. */
  predicate CrashesAt(replies: nat -> Reply, i: nat, k: nat) {
    && i <= k && replies(k).Crash?
    && forall j :: i <= j < k ==> !replies(j).Crash? && !StopsAt(replies(j))
  }

  ghost predicate Crashes(replies: nat -> Reply, i: nat, n: nat) {
    exists k: nat :: k < n && CrashesAt(replies, i, k)
  }

  lemma {:induction false} WalkCrashesExactlyWhen(queries: seq<SearchQuery>, provider: string, replies: nat -> Reply,
                                                  i: nat)
    requires i <= |queries|
    ensures Walk(queries, provider, replies, i) == None <==> Crashes(replies, i, |queries|)
    decreases |queries| - i
  {
    if i < |queries| {
      if replies(i).Crash? {
        assert CrashesAt(replies, i, i);
      } else if !StopsAt(replies(i)) {
        WalkCrashesExactlyWhen(queries, provider, replies, i + 1);
        CrashesFromNext(replies, i, |queries|);
      }
    }
  }

  lemma CrashesFromNext(replies: nat -> Reply, i: nat, n: nat)
    requires !replies(i).Crash? && !StopsAt(replies(i))
    ensures Crashes(replies, i, n) <==> Crashes(replies, i + 1, n)
  {
    if Crashes(replies, i, n) {
      var k: nat :| k < n && CrashesAt(replies, i, k);
      assert CrashesAt(replies, i + 1, k);
    }
    if Crashes(replies, i + 1, n) {
      var k: nat :| k < n && CrashesAt(replies, i + 1, k);
      assert CrashesAt(replies, i, k);
    }
  }

  // ----- The verdict ----------------------------------------------------------------------------------------

  predicate UsableName(raw: Option<string>) {
    raw.Some? && Collapse(raw.value) != "" && |Collapse(raw.value)| <= 100 && !HasMarkup(Collapse(raw.value))
  }

  /**
   What becomes of a run by its provider: a name that cannot be used is a configuration error; otherwise a profile or
   plan that cannot be executed raises, a crash that is come to is a failed execution, and a result under names that do
   not agree is an invalid one.
   */
  lemma JudgedExactlyWhen(t: Tables, profile: Profile, raw: Option<string>, preview: QueryPreview,
                          replies: nat -> Reply)
    ensures var verdict := Judge(t, profile, raw, preview, replies);
      if !UsableName(raw) then verdict == Fail("invalid-provider", ConfigurationError)
      else if !profile.enabled || RevalidatePreview(t, profile, preview).Invalid? then
        verdict == Raise(ProfileExecutionError)
      else if Crashes(replies, 0, |preview.queries|) || Strip(profile.name) == "" then
        verdict == Fail(Collapse(raw.value), ExecutionFailed)
      else
        verdict == Fail(Collapse(raw.value), ExecutionInvalid)
        || (verdict.Proceed? && verdict.provider == Collapse(raw.value))
  {
    if raw.Some? {
      CollapseOfStrip(raw.value);
      RevalidatedExactlyWhen(t, profile, preview);
      var valid := RevalidatePreview(t, profile, preview);
      if UsableName(raw) && valid.Valid? {
        WalkCrashesExactlyWhen(valid.value.queries, Strip(raw.value), replies, 0);
        NamedIsNotBlank(raw.value);
      }
    }
  }

  lemma NamedIsNotBlank(raw: string)
    requires Collapse(raw) != ""
    ensures Strip(raw) != ""
  {
    CollapseOfStrip(raw);
  }

  // ----- The report -----------------------------------------------------------------------------------------

  predicate ReportsFailure(report: RunReport, profile: Profile, provider: string, preview: QueryPreview,
                           code: ErrorCode)
  {
    && report.projectId == profile.projectId && report.searchProfileId == profile.id
    && report.profileName == Collapse(profile.name) && report.provider == Collapse(provider)
    && report.status == Failed && report.errorCode == Some(code) && report.providerDiagnostic == None
    && report.queryCount == preview.queryCount && report.candidates == []
    && report.executedQueries == report.successfulQueries == report.providerResultCount == 0
    && report.providerErrorCount == report.adapterErrorCount == report.rejectedCount == report.duplicateCount == 0
    && report.uniqueCount == report.upserts == report.created == report.updated == report.isProtected == 0
    && !report.stoppedEarly && report.stopReason == None
  }

  /** A run that fails reports its code, the size of its plan and nothing found. */
  lemma FailedRunReports(t: Tables, profile: Profile, preview: QueryPreview, provider: string, code: ErrorCode)
    requires StageDry(t, profile, preview, Fail(provider, code)).Ok?
    ensures ReportsFailure(StageDry(t, profile, preview, Fail(provider, code)).value, profile, provider, preview, code)
  {
    CollapseOfStrip(profile.name);
    CollapseOfStrip(provider);
  }

  /** Persisted it reports the same, and stores no row. */
  lemma FailedRunStores(t: Tables, profile: Profile, preview: QueryPreview, provider: string, code: ErrorCode,
                        s: Store)
    requires StagePersisted(t, profile, preview, Fail(provider, code), s).Ok?
    ensures var (report, after) := StagePersisted(t, profile, preview, Fail(provider, code), s).value;
      ReportsFailure(report, profile, provider, preview, code) && after.candidates == s.candidates
  {
    CollapseOfStrip(profile.name);
    CollapseOfStrip(provider);
  }

  /** The previews of a report are those of its rows, in order. */
  lemma PreviewsAreTheRows(t: Tables, profile: Profile, preview: QueryPreview, provider: string, r: DryRun,
                           report: RunReport)
    requires StageDry(t, profile, preview, Proceed(provider, r)) == Ok(report)
    ensures var rows := RowsOf(t, profile, provider, r);
      && |report.candidates| == |rows|
      && forall i :: 0 <= i < |rows| ==> CandidatePreview(t, rows[i]) == Valid(report.candidates[i])
  {
    var rows := RowsOf(t, profile, provider, r);
    AllValidExactlyWhen(seq(|rows|, i requires 0 <= i < |rows| => CandidatePreview(t, rows[i])));
  }
}
