/** Which candidates a run can list: only those upserted under its id. */
module RunMembership {
  import opened Common
  import opened Platform
  import opened DiscoveryTables
  import opened SearchProfileDiscovery
  import opened StagingDeduplication
  import opened StagingOrchestration
  import opened CandidateLifecycle
  import opened CandidateOrder
  import opened CompanySelection

  /** The candidates a run saw last. */
  ghost function SeenBy(s: Store, runId: nat): set<nat> {
    set id | id in s.candidates && s.candidates[id].lastSeenRun == runId
  }

  /** The steps that upsert under a run. */
  function UpsertsInto(steps: seq<Step>, runId: nat): nat {
    if |steps| == 0 then 0
    else UpsertsInto(steps[..|steps| - 1], runId)
         + if steps[|steps| - 1].Upsert? && steps[|steps| - 1].runId == runId then 1 else 0
  }

  lemma SubsetIsNoLarger(a: set<nat>, b: set<nat>)
    requires a <= b
    ensures |a| <= |b|
  {
    assert b == a + (b - a);
  }

  lemma OneMoreAtMost(a: set<nat>, b: set<nat>, extra: nat)
    requires a <= b + {extra}
    ensures |a| <= |b| + 1
  {
    SubsetIsNoLarger(a, b + {extra});
    SubsetIsNoLarger(b, b + {extra});
    if extra in b {
      assert b + {extra} == b;
    }
  }

  lemma UpsertAddsOneAtMost(t: Tables, s: Store, projectId: nat, runId: nat, data: CandidateCreate, ofRun: nat)
    requires UpsertCandidate(t, s, projectId, runId, data).Ok?
    ensures |SeenBy(UpsertCandidate(t, s, projectId, runId, data).value.0, ofRun)| <=
            |SeenBy(s, ofRun)| + One(runId == ofRun)
  {
    var (after, result) := UpsertCandidate(t, s, projectId, runId, data).value;
    if runId == ofRun {
      OneMoreAtMost(SeenBy(after, ofRun), SeenBy(s, ofRun), result.candidateId);
    } else {
      SubsetIsNoLarger(SeenBy(after, ofRun), SeenBy(s, ofRun));
    }
  }

  lemma StepAddsOneAtMost(t: Tables, s: Store, step: Step, ofRun: nat)
    ensures |SeenBy(Next(t, s, step), ofRun)| <= |SeenBy(s, ofRun)| + One(step.Upsert? && step.runId == ofRun)
  {
    if step.Upsert? {
      if UpsertCandidate(t, s, step.projectId, step.runId, step.data).Ok? {
        UpsertAddsOneAtMost(t, s, step.projectId, step.runId, step.data, ofRun);
      }
    } else {
      SightingsMoveOnlyByUpsert(t, s, step);
      assert SeenBy(Next(t, s, step), ofRun) == SeenBy(s, ofRun);
    }
  }

  /** Over any steps a run's membership grows by at most the number of upserts made under its id. */
  lemma {:induction false} MembershipGrowsByUpserts(t: Tables, s: Store, steps: seq<Step>, runId: nat)
    ensures |SeenBy(Trace(t, s, steps), runId)| <= |SeenBy(s, runId)| + UpsertsInto(steps, runId)
  {
    if |steps| != 0 {
      MembershipGrowsByUpserts(t, s, steps[..|steps| - 1], runId);
      StepAddsOneAtMost(t, Trace(t, s, steps[..|steps| - 1]), steps[|steps| - 1], runId);
    }
  }

  /** Run ids are fresh: no candidate was seen by a run that is yet to be created. */
  lemma FreshRunHasNoMembers(s: Store, runId: nat)
    requires Inv(s) && s.nextRun <= runId
    ensures SeenBy(s, runId) == {}
  {
    forall id | id in s.candidates
      ensures s.candidates[id].lastSeenRun != runId
    {
      assert RowIntact(s, id, s.candidates[id]);
    }
  }

  lemma {:induction false} UpsertsAddOneEach(t: Tables, s: Store, projectId: nat, runId: nat,
                                             payloads: seq<CandidateCreate>)
    requires UpsertCounted(t, s, projectId, runId, payloads).Ok? && Inv(s)
    ensures var after := UpsertCounted(t, s, projectId, runId, payloads).value.0;
      |SeenBy(after, runId)| <= |SeenBy(s, runId)| + |payloads| && Inv(after) && Evolves(s, after)
  {
    if |payloads| != 0 {
      var front := payloads[..|payloads| - 1];
      UpsertsAddOneEach(t, s, projectId, runId, front);
      var before := UpsertCounted(t, s, projectId, runId, front).value.0;
      UpsertAddsOneAtMost(t, before, projectId, runId, payloads[|payloads| - 1], runId);
      UpsertKeepsRows(t, before, projectId, runId, payloads[|payloads| - 1]);
      EvolvesTransitive(s, before, UpsertCounted(t, s, projectId, runId, payloads).value.0);
    }
  }

  lemma PersistedRunMembers(t: Tables, s: Store, profile: Profile, resultCount: nat, initialCode: Option<ErrorCode>,
                            status: RunStatus, code: Option<ErrorCode>, diagnostic: Option<Diagnostic>, rows: seq<Row>)
    requires Inv(s) && PersistRun(t, s, profile, resultCount, initialCode, status, code, diagnostic, rows).Ok?
    ensures
      var (after, counts) :=
        PersistRun(t, s, profile, resultCount, initialCode, status, code, diagnostic, rows).value;
      && Inv(after) && Evolves(s, after) && counts.upserts == |rows|
      && |SeenBy(after, s.nextRun)| <= counts.upserts
      && s.nextRun in after.runs && after.runs[s.nextRun].projectId == profile.projectId
      && after.runs[s.nextRun].status == status
  {
    var created := DiscoveryTables.CreateRun(s, profile.projectId, Some(profile.id), resultCount, initialCode).value;
    OpenedRunIsEmpty(s, profile.projectId, Some(profile.id), resultCount, initialCode);
    var payloads := RowPayloads(rows, s.nextRun);
    UpsertsAddOneEach(t, created, profile.projectId, s.nextRun, payloads);
    var (staged, counts) := UpsertCounted(t, created, profile.projectId, s.nextRun, payloads).value;
    ClosedRunKeepsMembers(s, created, staged, s.nextRun, status, resultCount, counts.upserts, code, diagnostic);
  }

  lemma OpenedRunIsEmpty(s: Store, projectId: nat, profileId: Option<nat>, resultCount: nat, code: Option<ErrorCode>)
    requires Inv(s) && DiscoveryTables.CreateRun(s, projectId, profileId, resultCount, code).Ok?
    ensures var created := DiscoveryTables.CreateRun(s, projectId, profileId, resultCount, code).value;
      && Inv(created) && Evolves(s, created) && SeenBy(created, s.nextRun) == {}
      && s.nextRun in created.runs && created.runs[s.nextRun].projectId == projectId
  {
    OpenRunKeepsRows(s, projectId, profileId, resultCount, code);
    FreshRunHasNoMembers(s, s.nextRun);
    assert SeenBy(DiscoveryTables.CreateRun(s, projectId, profileId, resultCount, code).value, s.nextRun)
      == SeenBy(s, s.nextRun);
  }

  lemma ClosedRunKeepsMembers(s: Store, created: Store, staged: Store, runId: nat, status: RunStatus, resultCount: nat,
                              candidateCount: nat, code: Option<ErrorCode>, diagnostic: Option<Diagnostic>)
    requires Inv(staged) && Evolves(s, created) && Evolves(created, staged) && runId in created.runs
    requires StorableDiagnostic(diagnostic)
    ensures DiscoveryTables.UpdateRun(staged, runId, status, resultCount, candidateCount, code, diagnostic).Ok?
    ensures
      var after :=
        DiscoveryTables.UpdateRun(staged, runId, status, resultCount, candidateCount, code, diagnostic).value;
      && Inv(after) && Evolves(s, after) && SeenBy(after, runId) == SeenBy(staged, runId)
      && after.runs[runId].projectId == created.runs[runId].projectId && after.runs[runId].status == status
  {
    CloseRunKeepsRows(staged, runId, status, resultCount, candidateCount, code, diagnostic);
    var after := DiscoveryTables.UpdateRun(staged, runId, status, resultCount, candidateCount, code, diagnostic).value;
    assert SeenBy(after, runId) == SeenBy(staged, runId);
    EvolvesTransitive(s, created, staged);
    EvolvesTransitive(s, staged, after);
  }

  /** A persisted staging run leaves at most as many candidates under its run id as it reports upserts. */
  lemma StagedRunMembers(t: Tables, profile: Profile, preview: QueryPreview, verdict: Verdict, s: Store,
                         report: RunReport, after: Store)
    requires Inv(s) && StagePersisted(t, profile, preview, verdict, s) == Ok((report, after))
    ensures Inv(after) && Evolves(s, after)
    ensures report.runId == Some(s.nextRun) && |SeenBy(after, s.nextRun)| <= report.upserts
    ensures s.nextRun in after.runs && after.runs[s.nextRun].projectId == profile.projectId
  {
    match verdict
    case Fail(provider, code) => PersistedRunMembers(t, s, profile, 0, Some(code), Failed, Some(code), None, []);
    case Proceed(provider, r) =>
      var rows := RowsOf(t, profile, provider, r);
      var (status, code) := EvaluateStatus(r, |rows|, Rejections(t, profile.projectId, provider, r.queryResults));
      PersistedRunMembers(t, s, profile, r.totalProviderResults, None, status, code, FirstDiagnostic(r.queryResults),
                          RowsToStore(status, rows));
  }

  lemma {:induction false} DistinctIdsFit(xs: seq<Listed>, ids: set<nat>)
    requires DistinctIds(xs) && forall x :: x in xs ==> x.id in ids
    ensures |xs| <= |ids|
    decreases |xs|
  {
    if |xs| != 0 {
      var last := xs[|xs| - 1];
      assert last in xs;
      var front := xs[..|xs| - 1];
      forall x | x in front
        ensures x.id in ids - {last.id}
      {
        var i :| 0 <= i < |front| && front[i] == x;
        assert xs[i] == x;
      }
      DistinctIdsFit(front, ids - {last.id});
    }
  }

  /** No more rows of a run are eligible than the run saw. */
  lemma EligibleFitsMembers(s: Store, projectId: nat, runId: nat, includePromoted: bool)
    ensures |Eligible(s, projectId, runId, includePromoted)| <= |SeenBy(s, runId)|
  {
    var rows := RowsOfRun(s.candidates, s.nextCandidate, projectId, runId, EligibleStatuses(includePromoted));
    RowsOfRunMembers(s.candidates, s.nextCandidate, projectId, runId, EligibleStatuses(includePromoted));
    InsertAllKeepsIds([], rows);
    EligibleMembers(s, projectId, runId, includePromoted);
    DistinctIdsFit(Eligible(s, projectId, runId, includePromoted), SeenBy(s, runId));
  }

  /**
   However other work interleaves with the selection, the eligible candidates of a staged run never outnumber
   the upserts its report counts, as long as nothing else upserts under its run id.
   */
  lemma EligibleNeverExceedsStaged(t: Tables, profile: Profile, preview: QueryPreview, verdict: Verdict, s: Store,
                                   report: RunReport, after: Store, later: seq<Step>, includePromoted: bool)
    requires Inv(s) && StagePersisted(t, profile, preview, verdict, s) == Ok((report, after))
    requires UpsertsInto(later, s.nextRun) == 0
    ensures |Eligible(Trace(t, after, later), profile.projectId, s.nextRun, includePromoted)| <= report.upserts
  {
    StagedRunMembers(t, profile, preview, verdict, s, report, after);
    MembershipGrowsByUpserts(t, after, later, s.nextRun);
    EligibleFitsMembers(Trace(t, after, later), profile.projectId, s.nextRun, includePromoted);
  }
}
