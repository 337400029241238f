/** What a company apply guarantees on tables that meet the lifecycle invariant. */
module CompanyApplyGuarantees {
  import opened Common
  import opened Text
  import opened Platform
  import opened StagingNormalization
  import opened DiscoveryTables
  import opened CandidatePromotion
  import opened CompanyApply
  import opened CandidateLifecycle

  /** The handoff names a usable run of the project that was the last to see the candidate. */
  predicate CurrentHandoff(s: Store, data: ApplyInput) {
    && data.confirmed && ValidateRun(s, data).Ok?
    && InProject(s, data.projectId, data.candidateId)
    && s.candidates[data.candidateId].lastSeenRun == data.runId
  }

  lemma CandidateChecksPass(s: Store, data: ApplyInput)
    requires Inv(s) && InProject(s, data.projectId, data.candidateId)
    ensures ValidateCandidate(s, data) ==
      if s.candidates[data.candidateId].lastSeenRun == data.runId then Ok(s.candidates[data.candidateId].status)
      else Err(StaleHandoff)
  {
    assert RowIntact(s, data.candidateId, s.candidates[data.candidateId]);
  }

  lemma ReviewedPromotes(t: Tables, s: Store, projectId: nat, candidateId: nat)
    requires Inv(s) && InProject(s, projectId, candidateId) && s.candidates[candidateId].status == Reviewed
    ensures PromoteCandidate(t, s, projectId, candidateId).Ok? <==> Promotable(t, s.candidates[candidateId].fields)
    ensures PromoteCandidate(t, s, projectId, candidateId).Ok? ==>
      var (after, result) := PromoteCandidate(t, s, projectId, candidateId).value;
      var row := s.candidates[candidateId];
      && result.companyId > 0 && result.previous == Reviewed && result.changed
      && UsableCompany(after, projectId, result.companyId)
      && (result.created <==> result.companyId !in s.companies)
      && candidateId in after.candidates
      && after.candidates[candidateId] == row.(status := Promoted, promotedCompany := Some(result.companyId))
  {
    assert RowIntact(s, candidateId, s.candidates[candidateId]);
  }

  lemma PromotedStays(t: Tables, s: Store, projectId: nat, candidateId: nat)
    requires Inv(s) && InProject(s, projectId, candidateId) && s.candidates[candidateId].status == Promoted
    ensures var row := s.candidates[candidateId];
      && row.promotedCompany.Some? && row.promotedCompany.value > 0
      && UsableCompany(s, projectId, row.promotedCompany.value)
      && PromoteCandidate(t, s, projectId, candidateId)
         == Ok((s, PromotionResult(row.promotedCompany.value, Promoted, false, false)))
  {
    assert RowIntact(s, candidateId, s.candidates[candidateId]);
  }

  /** The full outcome of an apply of a current handoff, by the status the candidate had. */
  lemma CurrentApply(t: Tables, s: Store, data: ApplyInput)
    requires Inv(s) && CurrentHandoff(s, data)
    ensures var row := s.candidates[data.candidateId];
      var outcome := ApplyPlan(t, s, data);
      match row.status
      case Rejected => outcome == Err(CandidateNotEligible)
      case Promoted =>
        && outcome.Ok? && outcome.value.0 == s && ValidLifecycle(outcome.value.1)
        && outcome.value.1.before == Promoted && row.promotedCompany == Some(outcome.value.1.companyId)
      case _ =>
        if !Promotable(t, row.fields) then outcome == Err(Inconsistent)
        else
          && outcome.Ok? && ValidLifecycle(outcome.value.1) && outcome.value.1.before == row.status
          && data.candidateId in outcome.value.0.candidates
          && outcome.value.0.candidates[data.candidateId] ==
             row.(status := Promoted, promotedCompany := Some(outcome.value.1.companyId))
          && (outcome.value.1.companyCreated <==> outcome.value.1.companyId !in s.companies)
          && UsableCompany(outcome.value.0, data.projectId, outcome.value.1.companyId)
  {
    CandidateChecksPass(s, data);
    var row := s.candidates[data.candidateId];
    if row.status == Promoted {
      PromotedStays(t, s, data.projectId, data.candidateId);
    } else if row.status != Rejected {
      TransitionKeepsRows(s, data.projectId, data.candidateId, Reviewed);
      var reviewed := ReviewedFirst(s, data.projectId, data.candidateId);
      ReviewedPromotes(t, reviewed, data.projectId, data.candidateId);
      var promoted := PromoteCandidate(t, reviewed, data.projectId, data.candidateId);
      if promoted.Ok? {
        PromotionKeepsRows(t, reviewed, data.projectId, data.candidateId);
        CandidateChecksPass(promoted.value.0, data);
      }
    }
  }

  /**
   On tables that meet the invariant an apply succeeds exactly when the handoff is current and the candidate is
   promoted already or may still be promoted with the data it has. It reports inconsistency exactly when a
   current, open candidate lacks that data, and staleness exactly when another run saw the candidate last.
   */
  lemma ApplyOutcomes(t: Tables, s: Store, data: ApplyInput)
    requires Inv(s)
    ensures var outcome := ApplyPlan(t, s, data);
      var current := CurrentHandoff(s, data);
      && (outcome.Ok? <==>
          && current && s.candidates[data.candidateId].status != Rejected
          && (s.candidates[data.candidateId].status == Promoted
              || Promotable(t, s.candidates[data.candidateId].fields)))
      && (outcome == Err(Inconsistent) <==>
          && current && s.candidates[data.candidateId].status in {Discovered, Reviewed}
          && !Promotable(t, s.candidates[data.candidateId].fields))
      && (outcome == Err(CandidateNotEligible) <==> current && s.candidates[data.candidateId].status == Rejected)
      && (outcome == Err(StaleHandoff) <==>
          && data.confirmed && ValidateRun(s, data).Ok?
          && InProject(s, data.projectId, data.candidateId) && s.candidates[data.candidateId].lastSeenRun != data.runId)
      && outcome != Err(CompanyInvalid) && outcome != Err(NotPersisted)
  {
    if CurrentHandoff(s, data) {
      CurrentApply(t, s, data);
    } else if InProject(s, data.projectId, data.candidateId) {
      CandidateChecksPass(s, data);
    }
  }

  /** A stored row lacks only two things a promotion may ask for: a name, or a short website with a hostname. */
  lemma StoredRowsPromoteWithNameAndHost(t: Tables, n: Normalized)
    requires t.Lawful() && NormalForm(t, n)
    ensures Promotable(t, n) <==> n.name.Some? && PromotableWebsite(t, n.website)
    ensures Promotable(t, n) ==> PromotionName(t, n.name) == Valid(n.name.value)
  {
    if n.name.Some? {
      NormalIsFixed(n.name.value);
    }
    if n.countryCode.Some? {
      assert t.isoCountry(n.countryCode.value).Some?;
    }
  }

  lemma AppliedRow(t: Tables, s: Store, data: ApplyInput)
    requires Inv(s) && ApplyPlan(t, s, data).Ok?
    ensures var (applied, first) := ApplyPlan(t, s, data).value;
      && InProject(applied, data.projectId, data.candidateId)
      && applied.candidates[data.candidateId].status == Promoted
      && applied.candidates[data.candidateId].promotedCompany == Some(first.companyId)
  {
    ApplyOutcomes(t, s, data);
    CurrentApply(t, s, data);
  }

  lemma AppliedStoreEvolves(t: Tables, s: Store, data: ApplyInput)
    requires Inv(s) && ApplyPlan(t, s, data).Ok?
    ensures Inv(ApplyPlan(t, s, data).value.0) && Evolves(s, ApplyPlan(t, s, data).value.0)
  {
    ApplyIsReviewThenPromote(t, s, data);
    ReviewThenPromoteKeepsRows(t, s, data.projectId, data.candidateId);
  }

  lemma PromotedRowStays(a: Store, b: Store, projectId: nat, id: nat)
    requires RowsEvolve(a, b) && InProject(a, projectId, id) && a.candidates[id].status == Promoted
    ensures InProject(b, projectId, id) && b.candidates[id].status == Promoted
    ensures b.candidates[id].promotedCompany == a.candidates[id].promotedCompany
  {
    assert RowEvolves(a.candidates[id], b.candidates[id]);
  }

  /**
   An apply that succeeded can be repeated at any later time, after any other steps: it then returns the same
   company and changes nothing, unless the run is no longer usable or another run has seen the candidate since.
   */
  lemma ApplyIsIdempotent(t: Tables, s: Store, data: ApplyInput, later: seq<Step>)
    requires Inv(s) && ApplyPlan(t, s, data).Ok?
    ensures var (applied, first) := ApplyPlan(t, s, data).value;
      var now := Trace(t, applied, later);
      var again := ApplyPlan(t, now, data);
      && InProject(now, data.projectId, data.candidateId)
      && (CurrentHandoff(now, data) ==>
          && again.Ok? && again.value.0 == now
          && again.value.1 == ApplyResult(first.companyId, Promoted, Promoted, false, true, false, false, false))
      && (again.Err? ==> again.error == StaleHandoff || again.error == RunNotEligible)
  {
    AppliedRow(t, s, data);
    AppliedStoreEvolves(t, s, data);
    var (applied, first) := ApplyPlan(t, s, data).value;
    LifecycleIsSafe(t, applied, later);
    var now := Trace(t, applied, later);
    PromotedRowStays(applied, now, data.projectId, data.candidateId);
    EvolvesTransitive(s, applied, now);
    RunStays(t, s, data, now);
    PromotedApply(t, now, data, first.companyId);
  }

  lemma PromotedApply(t: Tables, s: Store, data: ApplyInput, companyId: nat)
    requires Inv(s) && InProject(s, data.projectId, data.candidateId) && data.confirmed
    requires s.candidates[data.candidateId].status == Promoted
    requires s.candidates[data.candidateId].promotedCompany == Some(companyId)
    requires ValidateRun(s, data).Ok? || ValidateRun(s, data) == Err(RunNotEligible)
    ensures var again := ApplyPlan(t, s, data);
      && (CurrentHandoff(s, data) ==>
          again == Ok((s, ApplyResult(companyId, Promoted, Promoted, false, true, false, false, false))))
      && (again.Err? ==> again.error == StaleHandoff || again.error == RunNotEligible)
  {
    ApplyOutcomes(t, s, data);
    CandidateChecksPass(s, data);
    PromotedStays(t, s, data.projectId, data.candidateId);
  }

  lemma RunStays(t: Tables, s: Store, data: ApplyInput, now: Store)
    requires ApplyPlan(t, s, data).Ok? && Evolves(s, now)
    ensures ValidateRun(now, data).Ok? || ValidateRun(now, data) == Err(RunNotEligible)
  {
  }

  // ----- Stale handoffs ---------------------------------------------------------------------------------

  /** The run of the last upsert in the steps that touched the row, or `initial` if none did. */
  function LastSeenBy(t: Tables, s: Store, steps: seq<Step>, id: nat, initial: nat): nat {
    if |steps| == 0 then initial
    else
      var front := steps[..|steps| - 1];
      var step := steps[|steps| - 1];
      if Touches(t, Trace(t, s, front), step, id) then step.runId else LastSeenBy(t, s, front, id, initial)
  }

  predicate Touches(t: Tables, s: Store, step: Step, id: nat) {
    && step.Upsert?
    && var outcome := UpsertCandidate(t, s, step.projectId, step.runId, step.data);
       outcome.Ok? && outcome.value.1.candidateId == id
  }

  lemma {:induction false} LastRunIsLastUpsert(t: Tables, s: Store, steps: seq<Step>, id: nat)
    requires Inv(s) && id in s.candidates
    ensures id in Trace(t, s, steps).candidates
    ensures Trace(t, s, steps).candidates[id].lastSeenRun == LastSeenBy(t, s, steps, id, s.candidates[id].lastSeenRun)
  {
    if |steps| != 0 {
      var front, step := steps[..|steps| - 1], steps[|steps| - 1];
      LastRunIsLastUpsert(t, s, front, id);
      LifecycleIsSafe(t, s, front);
      if step.Upsert? {
        UpsertMovesLastRun(t, Trace(t, s, front), step, id);
      } else {
        SightingsMoveOnlyByUpsert(t, Trace(t, s, front), step);
      }
    }
  }

  lemma UpsertMovesLastRun(t: Tables, s: Store, step: Step, id: nat)
    requires Inv(s) && step.Upsert? && id in s.candidates
    ensures var after := Next(t, s, step);
      id in after.candidates &&
      after.candidates[id].lastSeenRun == if Touches(t, s, step, id) then step.runId else s.candidates[id].lastSeenRun
  {
    if UpsertCandidate(t, s, step.projectId, step.runId, step.data).Ok? {
      UpsertTouchesOneRow(t, s, step.projectId, step.runId, step.data, id);
    }
  }

  /**
   A handoff made when its run had just seen the candidate is refused as stale exactly when a later run sees
   it again.
   */
  lemma StaleExactlyWhenSeenAgain(t: Tables, s: Store, data: ApplyInput, later: seq<Step>)
    requires Inv(s) && CurrentHandoff(s, data)
    ensures var now := Trace(t, s, later);
      ApplyPlan(t, now, data) == Err(StaleHandoff) <==>
        && data.runId in now.runs && now.runs[data.runId].status in {Succeeded, Partial}
        && LastSeenBy(t, s, later, data.candidateId, data.runId) != data.runId
  {
    LifecycleIsSafe(t, s, later);
    var now := Trace(t, s, later);
    assert RowEvolves(s.candidates[data.candidateId], now.candidates[data.candidateId]);
    LastRunIsLastUpsert(t, s, later, data.candidateId);
    ApplyOutcomes(t, now, data);
  }
}
