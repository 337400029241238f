/** What a company plan reports, by the selection it made and the answer it was given. */
module PlanOutcomes {
  import opened Common
  import opened DiscoveryTables
  import opened StagingMerge
  import opened CompanySelection
  import opened SelectionOrder
  import opened CompanyPlan

  /** The selection a plan makes. */
  ghost function Selection(s: Store, boundary: DecisionBoundary, runId: nat, data: PlanInput,
                           evidence: map<string, Evidence>): Result<SelectionInput, SelectionError>
  {
    PrepareSelection(s, boundary.size, data.projectId, runId, data.goal, 5, data.includePromoted,
                     if data.includePromoted then evidence else map[])
  }

  /** The report lists the candidates bound, in order, under the fingerprint of the request. */
  predicate Lists(r: PlanResult, boundary: DecisionBoundary, x: SelectionInput) {
    && r.eligible == |r.candidateIds| == |x.bindings|
    && (forall i :: 0 <= i < |x.bindings| ==> r.candidateIds[i] == x.bindings[i].candidateId)
    && r.fingerprint == Some(boundary.fingerprint(x.request))
  }

  /** The candidate an answer selects, with the company it was promoted to if that is asked for. */
  predicate Selects(s: Store, data: PlanInput, r: PlanResult) {
    match r.decision
    case Some(Select(index)) =>
      && 1 <= index <= |r.candidateIds| && r.selectedCandidate == Some(r.candidateIds[index - 1])
      && r.candidateIds[index - 1] in s.candidates
      && var row := s.candidates[r.candidateIds[index - 1]];
         r.existingCompany ==
         if data.includePromoted && row.status == Promoted then row.promotedCompany else None
    case _ => r.selectedCandidate == None && r.existingCompany == None
  }

  /** A plan that decides reports the answer, and resolves it on the request's own bindings. */
  lemma DecisionReported(s: Store, boundary: DecisionBoundary, runId: nat, staged: nat, includePromoted: bool,
                         x: SelectionInput, r: PlanResult)
    requires Decide(s, boundary, runId, staged, includePromoted, x) == Ok(r)
    ensures r.runId == runId && r.staged == staged && r.decisionCalls == 1 && !r.suppressed
    ensures r.decision == boundary.decide(x.request) && r.decision.Some? && Lists(r, boundary, x)
    ensures ResolveCandidate(boundary.size, x, r.decision.value) == Ok(r.selectedCandidate)
    ensures
      if includePromoted then ResolveExistingCompany(s, boundary.size, x, r.decision.value) == Ok(r.existingCompany)
      else r.existingCompany == None
  {
  }

  lemma AnswerSelects(s: Store, size: Request -> nat, data: PlanInput, x: SelectionInput, r: PlanResult)
    requires ValidSelection(x) && size(x.request) <= MAX_REQUEST_BYTES && r.decision.Some?
    requires |r.candidateIds| == |x.bindings|
    requires forall i :: 0 <= i < |x.bindings| ==>
      r.candidateIds[i] == x.bindings[i].candidateId && x.bindings[i].candidateId in s.candidates
    requires ResolveCandidate(size, x, r.decision.value) == Ok(r.selectedCandidate)
    requires if data.includePromoted then ResolveExistingCompany(s, size, x, r.decision.value) == Ok(r.existingCompany)
             else r.existingCompany == None
    ensures Selects(s, data, r)
  {
    if r.decision.value.Select? {
      ResolveFindsTheShown(size, x, r.decision.value.index, 0);
    }
  }

  lemma DecisionSelects(s: Store, boundary: DecisionBoundary, runId: nat, staged: nat, data: PlanInput,
                        evidence: map<string, Evidence>, x: SelectionInput, r: PlanResult)
    requires IdsBounded(s) && Selection(s, boundary, runId, data, evidence) == Ok(x)
    requires Decide(s, boundary, runId, staged, data.includePromoted, x) == Ok(r)
    ensures Selects(s, data, r)
  {
    var shown := if data.includePromoted then evidence else map[];
    DecisionReported(s, boundary, runId, staged, data.includePromoted, x, r);
    SelectionShowsTopK(s, boundary.size, data.projectId, runId, data.goal, 5, data.includePromoted, shown, x);
    SelectionIsInOrder(s, boundary.size, data.projectId, runId, data.goal, 5, data.includePromoted, shown, x);
    AnswerSelects(s, boundary.size, data, x, r);
  }

  /**
   What a plan reports. Without candidates nothing was asked or listed; otherwise it lists the candidates its selection
   bound, in order, and either the request was decided before and nothing was asked, or the answer to it is reported
   with the candidate and, where it may be named, the company the answer selects.
   */
  lemma PlanReports(s: Store, boundary: DecisionBoundary, runId: nat, staged: nat, data: PlanInput,
                    evidence: map<string, Evidence>, r: PlanResult)
    requires IdsBounded(s) && PlanSelection(s, boundary, runId, staged, data, evidence) == Ok(r)
    ensures r.runId == runId && r.staged == staged
    ensures match Selection(s, boundary, runId, data, evidence)
      case Ok(x) =>
        && Lists(r, boundary, x) && r.suppressed == (r.fingerprint.value in data.excluded) && Selects(s, data, r)
        && (if r.suppressed then r.decisionCalls == 0 && r.decision == None
            else r.decisionCalls == 1 && r.decision == boundary.decide(x.request))
      case Err(error) =>
        error == NoCandidates && r == PlanResult(runId, staged, 0, None, None, None, None, false, 0, [])
  {
    var selection := Selection(s, boundary, runId, data, evidence);
    if selection.Ok? && boundary.fingerprint(selection.value.request) !in data.excluded {
      DecisionReported(s, boundary, runId, staged, data.includePromoted, selection.value, r);
      DecisionSelects(s, boundary, runId, staged, data, evidence, selection.value, r);
    }
  }
}
