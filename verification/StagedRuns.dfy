/** A persisted staging run against its report: the run row it stores, the rows it changes and the replies it counts. */
module StagedRuns {
  import opened Common
  import opened Text
  import opened Platform
  import opened StagingNormalization
  import opened DiscoveryTables
  import opened SearchProfileDiscovery
  import opened StagingAdapter
  import opened StagingMerge
  import opened StagingDeduplication
  import opened StagingOrchestration
  import opened CandidateLifecycle
  import opened CandidateSightings

  // ----- The stored run ---------------------------------------------------------------------------------

  lemma {:induction false} UpsertsKeepTheRest(t: Tables, s: Store, projectId: nat, runId: nat,
                                              payloads: seq<CandidateCreate>)
    requires UpsertCounted(t, s, projectId, runId, payloads).Ok?
    ensures var after := UpsertCounted(t, s, projectId, runId, payloads).value.0;
      after == s.(candidates := after.candidates, nextCandidate := after.nextCandidate)
  {
    if |payloads| != 0 {
      UpsertsKeepTheRest(t, s, projectId, runId, payloads[..|payloads| - 1]);
    }
  }

  lemma PersistStores(t: Tables, s: Store, profile: Profile, resultCount: nat, initialCode: Option<ErrorCode>,
                      status: RunStatus, code: Option<ErrorCode>, diagnostic: Option<Diagnostic>, rows: seq<Row>)
    requires PersistRun(t, s, profile, resultCount, initialCode, status, code, diagnostic, rows).Ok?
    ensures
      var (after, counts) :=
        PersistRun(t, s, profile, resultCount, initialCode, status, code, diagnostic, rows).value;
      && after.runs ==
         s.runs[s.nextRun := Run(profile.projectId, status, resultCount, counts.upserts, code, diagnostic)]
      && after == s.(runs := after.runs, nextRun := s.nextRun + 1, candidates := after.candidates,
                     nextCandidate := after.nextCandidate)
  {
    var created := DiscoveryTables.CreateRun(s, profile.projectId, Some(profile.id), resultCount, initialCode).value;
    UpsertsKeepTheRest(t, created, profile.projectId, s.nextRun, RowPayloads(rows, s.nextRun));
  }

  /** The run a persisted staging run stores is the one it reports; of the other tables only the candidates change. */
  lemma StoredRunIsReported(t: Tables, profile: Profile, preview: QueryPreview, verdict: Verdict, s: Store,
                            report: RunReport, after: Store)
    requires StagePersisted(t, profile, preview, verdict, s) == Ok((report, after))
    ensures report.runId == Some(s.nextRun) && report.runPersisted && !report.dryRun
    ensures after.runs ==
      s.runs[s.nextRun := Run(profile.projectId, report.status, report.providerResultCount, report.upserts,
                              report.errorCode, report.providerDiagnostic)]
    ensures after == s.(runs := after.runs, nextRun := s.nextRun + 1, candidates := after.candidates,
                        nextCandidate := after.nextCandidate)
  {
    match verdict
    case Fail(provider, code) => PersistStores(t, s, profile, 0, Some(code), Failed, Some(code), None, []);
    case Proceed(provider, r) =>
      var rows := RowsOf(t, profile, provider, r);
      var (status, code) := EvaluateStatus(r, |rows|, Rejections(t, profile.projectId, provider, r.queryResults));
      PersistStores(t, s, profile, r.totalProviderResults, None, status, code, FirstDiagnostic(r.queryResults),
                    RowsToStore(status, rows));
  }

  // ----- The rows it changes ----------------------------------------------------------------------------

  function NewRows(before: Store, after: Store): set<nat> {
    after.candidates.Keys - before.candidates.Keys
  }

  function ChangedRows(before: Store, after: Store): set<nat> {
    set id | id in before.candidates && id in after.candidates && after.candidates[id] != before.candidates[id]
  }

  function ChangedPastDiscovered(before: Store, after: Store): set<nat> {
    set id | id in ChangedRows(before, after) && before.candidates[id].status != Discovered
  }

  /** The counters of the upserts are the numbers of rows that are new, that changed, and that are protected. */
  predicate CountsRows(counts: Counts, before: Store, after: Store) {
    && counts.created == |NewRows(before, after)| && counts.updated == |ChangedRows(before, after)|
    && counts.isProtected == |ChangedPastDiscovered(before, after)|
  }

  /** The identity a payload is stored under. */
  function IdentityOf(t: Tables, data: CandidateCreate): Option<string> {
    match NormalizeCandidateIdentity(t, data.name, data.website, data.countryCode)
    case Invalid => None
    case Valid(n) => Some(n.identityKey)
  }

  ghost predicate OneEach(t: Tables, payloads: seq<CandidateCreate>) {
    forall i, j :: 0 <= i < j < |payloads| ==> IdentityOf(t, payloads[i]) != IdentityOf(t, payloads[j])
  }

  predicate Moved(before: Store, after: Store, id: nat) {
    id in after.candidates && (id in before.candidates ==> after.candidates[id] != before.candidates[id])
  }

  ghost predicate IsIdentityOfOne(t: Tables, payloads: seq<CandidateCreate>, key: string) {
    exists i :: 0 <= i < |payloads| && IdentityOf(t, payloads[i]) == Some(key)
  }

  /** Every row that is new or changed has the identity of one of the payloads. */
  ghost predicate OnlyTheirRows(t: Tables, before: Store, after: Store, payloads: seq<CandidateCreate>) {
    && before.candidates.Keys <= after.candidates.Keys
    && forall id :: Moved(before, after, id) ==> IsIdentityOfOne(t, payloads, after.candidates[id].fields.identityKey)
  }

  lemma OneMoreChange(before: Store, middle: Store, after: Store, counts: Counts, more: Counts, id: nat)
    requires CountsRows(counts, before, middle) && id in middle.candidates && id in before.candidates
    requires id in after.candidates && after.candidates == middle.candidates[id := after.candidates[id]]
    requires middle.candidates[id] == before.candidates[id] != after.candidates[id]
    requires more.created == counts.created && more.updated == counts.updated + 1
    requires more.isProtected == counts.isProtected + One(before.candidates[id].status != Discovered)
    ensures CountsRows(more, before, after)
  {
    assert NewRows(before, after) == NewRows(before, middle);
    assert ChangedRows(before, after) == ChangedRows(before, middle) + {id};
    ProtectedChange(before, middle, after, id);
  }

  lemma ProtectedChange(before: Store, middle: Store, after: Store, id: nat)
    requires id in before.candidates && id !in ChangedRows(before, middle)
    requires ChangedRows(before, after) == ChangedRows(before, middle) + {id}
    ensures |ChangedPastDiscovered(before, after)| ==
            |ChangedPastDiscovered(before, middle)| + One(before.candidates[id].status != Discovered)
  {
    if before.candidates[id].status != Discovered {
      assert ChangedPastDiscovered(before, after) == ChangedPastDiscovered(before, middle) + {id};
    } else {
      assert ChangedPastDiscovered(before, after) == ChangedPastDiscovered(before, middle);
    }
  }

  lemma OneMoreRow(before: Store, middle: Store, after: Store, counts: Counts, more: Counts, id: nat)
    requires CountsRows(counts, before, middle) && before.candidates.Keys <= middle.candidates.Keys
    requires id !in middle.candidates
    requires id in after.candidates && after.candidates == middle.candidates[id := after.candidates[id]]
    requires more.created == counts.created + 1 && more.updated == counts.updated
    requires more.isProtected == counts.isProtected
    ensures CountsRows(more, before, after)
  {
    OneMoreKey(before, middle, after, id);
    SameChanges(before, middle, after);
  }

  lemma OneMoreKey(before: Store, middle: Store, after: Store, id: nat)
    requires id !in middle.candidates && before.candidates.Keys <= middle.candidates.Keys
    requires after.candidates.Keys == middle.candidates.Keys + {id}
    ensures |NewRows(before, after)| == |NewRows(before, middle)| + 1
  {
    OneMoreElement(before.candidates.Keys, middle.candidates.Keys, id);
  }

  lemma OneMoreElement(before: set<nat>, middle: set<nat>, id: nat)
    requires id !in middle && before <= middle
    ensures |middle + {id} - before| == |middle - before| + 1
  {
    assert middle + {id} - before == (middle - before) + {id};
  }

  lemma SameChanges(before: Store, middle: Store, after: Store)
    requires forall id :: id in before.candidates ==>
      id in middle.candidates && id in after.candidates && after.candidates[id] == middle.candidates[id]
    ensures ChangedRows(before, after) == ChangedRows(before, middle)
    ensures ChangedPastDiscovered(before, after) == ChangedPastDiscovered(before, middle)
  {
  }

  lemma {:induction false} CountsAreRows(t: Tables, s: Store, projectId: nat, runId: nat,
                                         payloads: seq<CandidateCreate>)
    requires Inv(s) && UpsertCounted(t, s, projectId, runId, payloads).Ok? && OneEach(t, payloads)
    requires forall id :: id in s.candidates ==> s.candidates[id].lastSeenRun != runId
    ensures var (after, counts) := UpsertCounted(t, s, projectId, runId, payloads).value;
      && Inv(after) && CountsRows(counts, s, after) && OnlyTheirRows(t, s, after, payloads)
      && counts.upserts == counts.created + counts.updated
  {
    if |payloads| == 0 {
      assert NewRows(s, s) == {} && ChangedRows(s, s) == {} && ChangedPastDiscovered(s, s) == {};
    } else {
      var n := |payloads| - 1;
      CountsAreRows(t, s, projectId, runId, payloads[..n]);
      var (middle, counts) := UpsertCounted(t, s, projectId, runId, payloads[..n]).value;
      UpsertKeepsRows(t, middle, projectId, runId, payloads[n]);
      NextUpsertCounts(t, s, middle, counts, projectId, runId, payloads);
    }
  }

  lemma NextUpsertCounts(t: Tables, s: Store, middle: Store, counts: Counts, projectId: nat, runId: nat,
                         payloads: seq<CandidateCreate>)
    requires |payloads| > 0 && OneEach(t, payloads) && OnlyTheirRows(t, s, middle, payloads[..|payloads| - 1])
    requires Inv(middle) && UpsertCandidate(t, middle, projectId, runId, payloads[|payloads| - 1]).Ok?
    requires CountsRows(counts, s, middle) && counts.upserts == counts.created + counts.updated
    requires forall id :: id in s.candidates ==> s.candidates[id].lastSeenRun != runId
    ensures var (after, result) := UpsertCandidate(t, middle, projectId, runId, payloads[|payloads| - 1]).value;
      var more := CountUpsert(counts, result);
      && CountsRows(more, s, after) && OnlyTheirRows(t, s, after, payloads)
      && more.upserts == more.created + more.updated
  {
    var (after, result) := UpsertCandidate(t, middle, projectId, runId, payloads[|payloads| - 1]).value;
    UpsertPuts(t, middle, projectId, runId, payloads[|payloads| - 1]);
    NextIsAnother(t, s, middle, payloads, result.candidateId);
    TheirRowsToo(t, s, middle, after, payloads, result.candidateId);
    CountedRow(s, middle, after, counts, result, runId);
  }

  /** The one row an upsert puts, and what it reports of it. */
  predicate Puts(before: Store, after: Store, result: UpsertResult, runId: nat) {
    var id := result.candidateId;
    && id in after.candidates && after.candidates == before.candidates[id := after.candidates[id]]
    && after.candidates[id].lastSeenRun == runId
    && result.created == (id !in before.candidates)
    && result.updated == (id in before.candidates && after.candidates[id] != before.candidates[id])
    && result.isProtected == (id in before.candidates && before.candidates[id].status != Discovered)
  }

  lemma UpsertPuts(t: Tables, s: Store, projectId: nat, runId: nat, data: CandidateCreate)
    requires Inv(s) && UpsertCandidate(t, s, projectId, runId, data).Ok?
    ensures var (after, result) := UpsertCandidate(t, s, projectId, runId, data).value;
      && Puts(s, after, result, runId)
      && IdentityOf(t, data) == Some(after.candidates[result.candidateId].fields.identityKey)
      && (result.candidateId in s.candidates ==>
          IdentityOf(t, data) == Some(s.candidates[result.candidateId].fields.identityKey))
  {
    UpsertWrites(t, s, projectId, runId, data);
  }

  lemma CountedRow(s: Store, middle: Store, after: Store, counts: Counts, result: UpsertResult, runId: nat)
    requires CountsRows(counts, s, middle) && counts.upserts == counts.created + counts.updated
    requires s.candidates.Keys <= middle.candidates.Keys && Puts(middle, after, result, runId)
    requires result.candidateId in middle.candidates ==>
      && result.candidateId in s.candidates
      && middle.candidates[result.candidateId] == s.candidates[result.candidateId]
      && s.candidates[result.candidateId].lastSeenRun != runId
    ensures var more := CountUpsert(counts, result);
      CountsRows(more, s, after) && more.upserts == more.created + more.updated
  {
    if result.candidateId in middle.candidates {
      OneMoreChange(s, middle, after, counts, CountUpsert(counts, result), result.candidateId);
    } else {
      OneMoreRow(s, middle, after, counts, CountUpsert(counts, result), result.candidateId);
    }
  }

  /** The row of a payload with an identity of its own is as it was before the others, or not there. */
  lemma NextIsAnother(t: Tables, s: Store, middle: Store, payloads: seq<CandidateCreate>, id: nat)
    requires |payloads| > 0 && OneEach(t, payloads) && OnlyTheirRows(t, s, middle, payloads[..|payloads| - 1])
    requires id in middle.candidates ==>
      IdentityOf(t, payloads[|payloads| - 1]) == Some(middle.candidates[id].fields.identityKey)
    ensures id in middle.candidates ==> id in s.candidates && middle.candidates[id] == s.candidates[id]
  {
    var n := |payloads| - 1;
    forall i | 0 <= i < n
      ensures IdentityOf(t, payloads[..n][i]) != IdentityOf(t, payloads[n])
    {
      assert payloads[..n][i] == payloads[i];
    }
  }

  lemma TheirRowsToo(t: Tables, s: Store, middle: Store, after: Store, payloads: seq<CandidateCreate>, id: nat)
    requires |payloads| > 0 && OnlyTheirRows(t, s, middle, payloads[..|payloads| - 1])
    requires id in after.candidates && after.candidates == middle.candidates[id := after.candidates[id]]
    requires IdentityOf(t, payloads[|payloads| - 1]) == Some(after.candidates[id].fields.identityKey)
    ensures OnlyTheirRows(t, s, after, payloads)
  {
    forall k | Moved(s, after, k)
      ensures IsIdentityOfOne(t, payloads, after.candidates[k].fields.identityKey)
    {
      if k == id {
        assert IdentityOf(t, payloads[|payloads| - 1]) == Some(after.candidates[k].fields.identityKey);
      } else {
        assert after.candidates[k] == middle.candidates[k] && Moved(s, middle, k);
        var i :| 0 <= i < |payloads| - 1
          && IdentityOf(t, payloads[..|payloads| - 1][i]) == Some(after.candidates[k].fields.identityKey);
        assert payloads[i] == payloads[..|payloads| - 1][i];
      }
    }
  }

  /** The rows of one run have different identities, and their payloads are stored under them. */
  lemma PayloadsAreOneEach(t: Tables, projectId: nat, items: seq<Adapted>, runId: nat)
    requires t.Lawful()
    requires forall row :: row in Deduplicate(items) ==>
      WellFormedRow(t, projectId, row) && Restage(t, row.sighting.fields).Valid?
    ensures OneEach(t, RowPayloads(Deduplicate(items), runId))
  {
    var rows := Deduplicate(items);
    var payloads := RowPayloads(rows, runId);
    RowsSayOfTheirItems(items);
    forall i | 0 <= i < |rows|
      ensures IdentityOf(t, payloads[i]) == Some(Key(rows[i].sighting))
    {
      assert rows[i] in rows;
      RestageFields(t, rows[i].sighting.fields);
    }
  }

  /**
   The counters a persisted run reports: as many created as there are new rows, as many updated as there are rows that
   changed, and as many protected as there are among those past DISCOVERED.
   */
  lemma ReportCountsRows(t: Tables, profile: Profile, preview: QueryPreview, verdict: Verdict, s: Store,
                         report: RunReport, after: Store)
    requires t.Lawful() && Inv(s) && StagePersisted(t, profile, preview, verdict, s) == Ok((report, after))
    ensures report.created == |NewRows(s, after)| && report.updated == |ChangedRows(s, after)|
      && report.isProtected == |ChangedPastDiscovered(s, after)|
    ensures report.upserts == report.created + report.updated
  {
    match verdict
    case Fail(provider, code) =>
      PersistCountsRows(t, s, profile, 0, Some(code), Failed, Some(code), None, []);
    case Proceed(provider, r) =>
      ProceedIsPersisted(t, profile, preview, provider, r, s, report, after);
      StagedCountsRows(t, s, profile, provider, r);
  }

  lemma ProceedIsPersisted(t: Tables, profile: Profile, preview: QueryPreview, provider: string, r: DryRun, s: Store,
                           report: RunReport, after: Store)
    requires StagePersisted(t, profile, preview, Proceed(provider, r), s) == Ok((report, after))
    ensures
      var persisted :=
        PersistStaged(t, s, profile, r, RowsOf(t, profile, provider, r),
                      Rejections(t, profile.projectId, provider, r.queryResults));
      && persisted.Ok? && persisted.value.0 == after
      && persisted.value.1 == Counts(report.upserts, report.created, report.updated, report.isProtected)
  {
  }

  lemma StagedCountsRows(t: Tables, s: Store, profile: Profile, provider: string, r: DryRun)
    requires t.Lawful() && Inv(s)
    requires PersistStaged(t, s, profile, r, RowsOf(t, profile, provider, r),
                           Rejections(t, profile.projectId, provider, r.queryResults)).Ok?
    ensures
      var (after, counts) :=
        PersistStaged(t, s, profile, r, RowsOf(t, profile, provider, r),
                      Rejections(t, profile.projectId, provider, r.queryResults)).value;
      CountsRows(counts, s, after) && counts.upserts == counts.created + counts.updated
  {
    var rows := RowsOf(t, profile, provider, r);
    var (status, code) := EvaluateStatus(r, |rows|, Rejections(t, profile.projectId, provider, r.queryResults));
    StoredRowsAreOneEach(t, s, profile, provider, r, status, code);
    PersistCountsRows(t, s, profile, r.totalProviderResults, None, status, code, FirstDiagnostic(r.queryResults),
                      RowsToStore(status, rows));
  }

  lemma StoredRowsAreOneEach(t: Tables, s: Store, profile: Profile, provider: string, r: DryRun, status: RunStatus,
                             code: Option<ErrorCode>)
    requires t.Lawful()
    requires var rows := RowsToStore(status, RowsOf(t, profile, provider, r));
      PersistRun(t, s, profile, r.totalProviderResults, None, status, code, FirstDiagnostic(r.queryResults), rows).Ok?
    ensures OneEach(t, RowPayloads(RowsToStore(status, RowsOf(t, profile, provider, r)), s.nextRun))
  {
    RowsOfAreWellFormed(t, profile, provider, r);
    var stored := RowsToStore(status, RowsOf(t, profile, provider, r));
    PersistsExactlyWhenRestageable(t, s, profile, r.totalProviderResults, None, status, code,
                                   FirstDiagnostic(r.queryResults), stored);
    if Persists(status) {
      PayloadsAreOneEach(t, profile.projectId, AdaptAll(t, profile.projectId, provider, r.queryResults), s.nextRun);
    }
  }

  lemma PersistCountsRows(t: Tables, s: Store, profile: Profile, resultCount: nat, initialCode: Option<ErrorCode>,
                          status: RunStatus, code: Option<ErrorCode>, diagnostic: Option<Diagnostic>, rows: seq<Row>)
    requires Inv(s) && OneEach(t, RowPayloads(rows, s.nextRun))
    requires PersistRun(t, s, profile, resultCount, initialCode, status, code, diagnostic, rows).Ok?
    ensures
      var (after, counts) :=
        PersistRun(t, s, profile, resultCount, initialCode, status, code, diagnostic, rows).value;
      CountsRows(counts, s, after) && counts.upserts == counts.created + counts.updated
  {
    var created := DiscoveryTables.CreateRun(s, profile.projectId, Some(profile.id), resultCount, initialCode).value;
    OpenRunKeepsRows(s, profile.projectId, Some(profile.id), resultCount, initialCode);
    forall id | id in created.candidates
      ensures created.candidates[id].lastSeenRun != s.nextRun
    {
      assert RowIntact(s, id, s.candidates[id]);
    }
    CountsAreRows(t, created, profile.projectId, s.nextRun, RowPayloads(rows, s.nextRun));
    var (staged, counts) :=
      UpsertCounted(t, created, profile.projectId, s.nextRun, RowPayloads(rows, s.nextRun)).value;
    SameRowsSameCounts(counts, created, staged, s,
                       PersistRun(t, s, profile, resultCount, initialCode, status, code, diagnostic, rows).value.0);
  }

  lemma SameRowsSameCounts(counts: Counts, before: Store, after: Store, sameBefore: Store, sameAfter: Store)
    requires CountsRows(counts, before, after)
    requires before.candidates == sameBefore.candidates && after.candidates == sameAfter.candidates
    ensures CountsRows(counts, sameBefore, sameAfter)
  {
  }

  // ----- The replies it counts --------------------------------------------------------------------------

  function Unadaptables(results: seq<ProviderResult>): nat {
    if |results| == 0 then 0
    else Unadaptables(results[..|results| - 1]) + One(results[|results| - 1].Unadaptable?)
  }

  /** Of the first n replies: how many answer, how many fail, and how many results and unadaptable ones they hold. */
  function Answers(replies: nat -> Reply, n: nat): nat {
    if n == 0 then 0 else Answers(replies, n - 1) + One(replies(n - 1).Answer?)
  }

  function Failures(replies: nat -> Reply, n: nat): nat {
    if n == 0 then 0 else Failures(replies, n - 1) + One(replies(n - 1).Failure?)
  }

  function ResultsHeld(replies: nat -> Reply, n: nat): nat {
    if n == 0 then 0
    else ResultsHeld(replies, n - 1) + if replies(n - 1).Answer? then |replies(n - 1).results| else 0
  }

  function UnadaptablesHeld(replies: nat -> Reply, n: nat): nat {
    if n == 0 then 0
    else UnadaptablesHeld(replies, n - 1) + if replies(n - 1).Answer? then Unadaptables(replies(n - 1).results) else 0
  }

  lemma {:induction false} ItemsAndUnadaptables(results: seq<ProviderResult>)
    ensures |Items(results)| + Unadaptables(results) == |results|
  {
    if |results| != 0 {
      ItemsAndUnadaptables(results[..|results| - 1]);
    }
  }

  lemma {:induction false} TotalsOfReplies(queries: seq<SearchQuery>, provider: string, replies: nat -> Reply,
                                           results: seq<QueryResult>)
    requires |results| <= |queries|
    requires forall k :: 0 <= k < |results| ==>
      !replies(k).Crash? && results[k] == QueryOutcome(queries[k], provider, replies(k))
    ensures var n := |results|;
      && SuccessfulQueries(results) == Answers(replies, n) && ProviderErrors(results) == Failures(replies, n)
      && ProviderResults(results) == ResultsHeld(replies, n) && AdapterErrors(results) == UnadaptablesHeld(replies, n)
  {
    if |results| != 0 {
      var n := |results| - 1;
      TotalsOfReplies(queries, provider, replies, results[..n]);
      if replies(n).Answer? {
        ItemsAndUnadaptables(replies(n).results);
      }
    }
  }

  /**
   The counters of a dry report by the replies of its provider and by the items they hold: each counts what its name
   says over the queries executed, and rows, repeats and rejections divide the items.
   */
  lemma ReportCountsReplies(t: Tables, profile: Profile, raw: string, preview: QueryPreview, replies: nat -> Reply,
                            provider: string, r: DryRun, report: RunReport)
    requires t.CountryLaw() && RevalidatePreview(t, profile, preview) == Valid(preview)
    requires Judge(t, profile, Some(raw), preview, replies) == Proceed(provider, r)
    requires StageDry(t, profile, preview, Proceed(provider, r)) == Ok(report)
    ensures FollowsPlan(preview.queries, Strip(raw), replies, 0, r.queryResults)
    ensures var n := report.executedQueries;
      && n == |r.queryResults| && report.queryCount == |preview.queries|
      && report.successfulQueries == Answers(replies, n) && report.providerErrorCount == Failures(replies, n)
      && report.providerResultCount == ResultsHeld(replies, n)
      && report.adapterErrorCount == UnadaptablesHeld(replies, n)
      && (report.stoppedEarly <==> n > 0 && StopsAt(replies(n - 1)))
      && (report.stoppedEarly ==> report.stopReason == Some(replies(n - 1).code))
    ensures var accepted := AdaptAll(t, profile.projectId, provider, r.queryResults);
      && report.rejectedCount == ItemCount(r.queryResults) - |accepted|
      && report.uniqueCount == |Deduplicate(accepted)|
      && report.duplicateCount == |accepted| - |Deduplicate(accepted)|
    ensures report.projectId == profile.projectId && report.searchProfileId == profile.id
      && report.profileName == Collapse(profile.name) && report.provider == Collapse(raw)
  {
    RunOfReplies(t, profile, raw, preview, replies, provider, r);
    DeduplicateCompacts(AdaptAll(t, profile.projectId, provider, r.queryResults));
    CollapseOfStrip(profile.name);
    CollapseOfStrip(raw);
    CollapseIsNormal(raw);
    CollapseOfStrip(provider);
    ReportOfRun(t, profile, preview, provider, r, report);
  }

  /** What the orchestrator is given by `run_dry`, by the replies. */
  lemma RunOfReplies(t: Tables, profile: Profile, raw: string, preview: QueryPreview, replies: nat -> Reply,
                     provider: string, r: DryRun)
    requires t.CountryLaw() && RevalidatePreview(t, profile, preview) == Valid(preview)
    requires Judge(t, profile, Some(raw), preview, replies) == Proceed(provider, r)
    ensures FollowsPlan(preview.queries, Strip(raw), replies, 0, r.queryResults)
    ensures var n := r.executedQueries;
      && n == |r.queryResults| && r.queryCount == |preview.queries|
      && SuccessfulQueries(r.queryResults) == Answers(replies, n) && r.totalProviderErrors == Failures(replies, n)
      && r.totalProviderResults == ResultsHeld(replies, n) && r.totalAdapterErrors == UnadaptablesHeld(replies, n)
      && (r.stoppedEarly <==> n > 0 && StopsAt(replies(n - 1)))
      && (r.stoppedEarly ==> r.stopReason == Some(replies(n - 1).code))
    ensures provider == Collapse(Strip(raw))
  {
    RunDryGuarantees(t, profile, raw, preview, replies, preview, r);
    RevalidationIsIdempotent(t, profile, preview);
    TotalsOfReplies(preview.queries, Strip(raw), replies, r.queryResults);
    WalkConserves(preview.queries, Strip(raw), replies, r.queryResults);
  }

  /**
   The status of a dry report by the replies: FAILED exactly if queries were executed and none was answered, SUCCEEDED
   exactly if there are rows and nothing went wrong, NOT_FOUND exactly if there are none and nothing did. An error code
   is that of the first failing reply, with its diagnostic, or else says that some candidate was invalid.
   */
  lemma StatusOfReplies(t: Tables, profile: Profile, raw: string, preview: QueryPreview, replies: nat -> Reply,
                        provider: string, r: DryRun, report: RunReport)
    requires t.CountryLaw() && RevalidatePreview(t, profile, preview) == Valid(preview)
    requires Judge(t, profile, Some(raw), preview, replies) == Proceed(provider, r)
    requires StageDry(t, profile, preview, Proceed(provider, r)) == Ok(report)
    ensures var n := report.executedQueries;
      var faultless := Failures(replies, n) == 0 && UnadaptablesHeld(replies, n) == 0 && report.rejectedCount == 0;
      && (report.status == Failed <==> n > 0 && Answers(replies, n) == 0)
      && (report.status == Succeeded <==> report.uniqueCount > 0 && faultless)
      && (report.status == NotFound <==> report.uniqueCount == 0 && faultless) && report.status != Pending
      && (report.errorCode.None? <==> report.status == Succeeded || report.status == NotFound)
    ensures report.errorCode.Some? && Failures(replies, report.executedQueries) == 0 ==>
      report.errorCode == Some(CandidateInvalid)
    ensures forall k :: 0 <= k < report.executedQueries && FirstFailureAt(replies, k) ==>
      && report.errorCode == Some(replies(k).code)
      && report.providerDiagnostic == if replies(k).code.RequestError? then replies(k).diagnostic else None
  {
    RunOfReplies(t, profile, raw, preview, replies, provider, r);
    RunDryWalks(t, profile, raw, preview, replies, r);
    RowsNeedItems(t, profile.projectId, provider, r.queryResults);
    StatusMeaning(r, |RowsOf(t, profile, provider, r)|, Rejections(t, profile.projectId, provider, r.queryResults));
    AnswersAndFailures(replies, |r.queryResults|);
    ReportOfRun(t, profile, preview, provider, r, report);
    StatusOfRun(t, profile, preview, provider, r, report);
    forall k | 0 <= k < report.executedQueries && FirstFailureAt(replies, k)
      ensures report.errorCode == Some(replies(k).code)
      ensures report.providerDiagnostic == if replies(k).code.RequestError? then replies(k).diagnostic else None
    {
      FirstFailureIsReported(preview.queries, Strip(raw), replies, r.queryResults, k);
      FailureCounts(replies, |r.queryResults|, k);
    }
  }

  lemma {:induction false} AnswersAndFailures(replies: nat -> Reply, n: nat)
    requires forall k :: 0 <= k < n ==> !replies(k).Crash?
    ensures Answers(replies, n) + Failures(replies, n) == n
    ensures Failures(replies, n) == n <==> forall k :: 0 <= k < n ==> replies(k).Failure?
  {
    if n != 0 {
      AnswersAndFailures(replies, n - 1);
    }
  }

  lemma {:induction false} FailureCounts(replies: nat -> Reply, n: nat, k: nat)
    requires k < n && replies(k).Failure?
    ensures Failures(replies, n) > 0
  {
    if k < n - 1 {
      FailureCounts(replies, n - 1, k);
    }
  }

  lemma StatusOfRun(t: Tables, profile: Profile, preview: QueryPreview, provider: string, r: DryRun, report: RunReport)
    requires StageDry(t, profile, preview, Proceed(provider, r)) == Ok(report)
    ensures (report.status, report.errorCode) ==
      EvaluateStatus(r, |RowsOf(t, profile, provider, r)|, Rejections(t, profile.projectId, provider, r.queryResults))
    ensures report.providerDiagnostic == FirstDiagnostic(r.queryResults)
  {
  }

  lemma ReportOfRun(t: Tables, profile: Profile, preview: QueryPreview, provider: string, r: DryRun, report: RunReport)
    requires StageDry(t, profile, preview, Proceed(provider, r)) == Ok(report)
    ensures report.executedQueries == r.executedQueries && report.queryCount == r.queryCount
      && report.successfulQueries == SuccessfulQueries(r.queryResults)
      && report.providerErrorCount == r.totalProviderErrors && report.providerResultCount == r.totalProviderResults
      && report.adapterErrorCount == r.totalAdapterErrors
      && report.stoppedEarly == r.stoppedEarly && report.stopReason == r.stopReason
      && report.rejectedCount == Rejections(t, profile.projectId, provider, r.queryResults)
      && report.uniqueCount == |RowsOf(t, profile, provider, r)|
      && report.duplicateCount == Duplicates(RowsOf(t, profile, provider, r))
      && report.projectId == profile.projectId && report.searchProfileId == profile.id
      && report.profileName == Collapse(Strip(profile.name)) && report.provider == Collapse(Strip(provider))
  {
  }
}
