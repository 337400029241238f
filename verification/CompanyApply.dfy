/** The confirmed apply of a company plan: check the handoff, review if needed, promote, check again, report. */
module CompanyApply {
  import opened Common
  import opened Platform
  import opened DiscoveryTables
  import opened StagingRepository
  import opened CandidateReview
  import opened CandidatePromotion

  datatype ApplyInput = ApplyInput(projectId: nat, runId: nat, candidateId: nat, confirmed: bool)

  datatype ApplyError =
    | ConfirmationRequired | ApplyNotFound | StaleHandoff | RunNotEligible | CandidateNotEligible
    | Inconsistent | CompanyInvalid | NotPersisted

  datatype ApplyResult = ApplyResult(
    companyId: nat, before: CandidateStatus, after: CandidateStatus,
    companyCreated: bool, companyReused: bool, candidateReviewed: bool, candidatePromoted: bool, crmMutated: bool)

  /** The lifecycle rules a result must meet to be built. */
  predicate ValidLifecycle(r: ApplyResult) {
    && r.companyId > 0 && r.after == Promoted
    && r.companyCreated == !r.companyReused
    && (match r.before
        case Discovered => r.candidateReviewed && r.candidatePromoted && r.crmMutated
        case Reviewed => !r.candidateReviewed && r.candidatePromoted && r.crmMutated
        case Promoted => !r.candidateReviewed && !r.candidatePromoted && !r.crmMutated && !r.companyCreated
        case Rejected => false)
  }

  /** The candidate as the handoff names it: present, of the project, last seen by the run, its link consistent. */
  function ValidateCandidate(s: Store, data: ApplyInput): Result<CandidateStatus, ApplyError> {
    if !InProject(s, data.projectId, data.candidateId) then Err(ApplyNotFound)
    else
      var row := s.candidates[data.candidateId];
      if row.firstSeenRun == 0 || row.lastSeenRun == 0 then Err(Inconsistent)
      else if row.lastSeenRun != data.runId then Err(StaleHandoff)
      else if (row.status == Promoted) != row.promotedCompany.Some? then Err(Inconsistent)
      else if row.promotedCompany == Some(0) then Err(Inconsistent)
      else Ok(row.status)
  }

  function ValidateRun(s: Store, data: ApplyInput): Result<RunStatus, ApplyError> {
    if data.projectId !in s.projects || data.runId !in s.runs || s.runs[data.runId].projectId != data.projectId then
      Err(ApplyNotFound)
    else if s.runs[data.runId].status !in {Succeeded, Partial} then Err(RunNotEligible)
    else Ok(s.runs[data.runId].status)
  }

  /** The status the candidate had, and the tables with it reviewed. */
  function PrepareCandidate(s: Store, data: ApplyInput): Result<(Store, CandidateStatus), ApplyError> {
    match ValidateRun(s, data)
    case Err(error) => Err(error)
    case Ok(_) =>
      match ValidateCandidate(s, data)
      case Err(error) => Err(error)
      case Ok(Discovered) =>
        (match Transition(s, data.projectId, data.candidateId, Reviewed)
         case Err(_) => Err(NotPersisted)
         case Ok(reviewed) =>
           if reviewed.1 == ReviewResult(data.candidateId, Discovered, Reviewed, true) then Ok((reviewed.0, Discovered))
           else Err(Inconsistent))
      case Ok(Rejected) => Err(CandidateNotEligible)
      case Ok(status) => Ok((s, status))
  }

  function Report(before: CandidateStatus, promotion: PromotionResult): ApplyResult {
    ApplyResult(promotion.companyId, before, Promoted, promotion.created, !promotion.created,
                before == Discovered, before != Promoted, before != Promoted)
  }

  /** What is checked of the promotion and of the rows it left before a result is built. */
  function Conclude(s: Store, data: ApplyInput, before: CandidateStatus, promotion: PromotionResult):
    Result<ApplyResult, ApplyError>
  {
    if promotion.previous != (if before == Promoted then Promoted else Reviewed)
      || promotion.changed == (before == Promoted) then
      Err(Inconsistent)
    else match ValidateCandidate(s, data)
      case Err(error) => Err(error)
      case Ok(status) =>
        if status != Promoted
          || s.candidates[data.candidateId].promotedCompany != Some(promotion.companyId) then Err(Inconsistent)
        else if !UsableCompany(s, data.projectId, promotion.companyId) then Err(CompanyInvalid)
        else if ValidLifecycle(Report(before, promotion)) then Ok(Report(before, promotion))
        else Err(Inconsistent)
  }

  function ApplyPlan(t: Tables, s: Store, data: ApplyInput): Result<(Store, ApplyResult), ApplyError> {
    if !data.confirmed then Err(ConfirmationRequired)
    else match PrepareCandidate(s, data)
      case Err(error) => Err(error)
      case Ok(prepared) =>
        match PromoteCandidate(t, prepared.0, data.projectId, data.candidateId)
        case Err(_) => Err(Inconsistent)
        case Ok(promoted) =>
          match Conclude(promoted.0, data, prepared.1, promoted.1)
          case Err(error) => Err(error)
          case Ok(result) => Ok((promoted.0, result))
  }

  class AgentCompanyApplyService {
    const staging: CompanyDiscoveryStagingRepository
    const review: CompanyDiscoveryCandidateReviewService
    const promotion: CompanyDiscoveryCandidatePromotionService

    constructor (review: CompanyDiscoveryCandidateReviewService, promotion: CompanyDiscoveryCandidatePromotionService)
      requires promotion.Valid() && review.repository == promotion.staging
      ensures this.promotion == promotion && this.staging == promotion.staging && Valid()
    {
      this.staging, this.review, this.promotion := promotion.staging, review, promotion;
    }

    ghost predicate Valid() {
      promotion.Valid() && review.repository == promotion.staging == staging
    }

    /** One transaction: what the service did is kept on success and rolled back on any error. */
    method Execute(data: ApplyInput) returns (r: Result<ApplyResult, ApplyError>)
      requires Valid()
      modifies staging.session
      ensures match ApplyPlan(staging.tables, old(staging.session.View()), data)
        case Err(error) => r == Err(error) && staging.session.View() == old(staging.session.View())
        case Ok(applied) => r == Ok(applied.1) && staging.session.View() == applied.0
    {
      var begin := staging.session.View();
      r := Run(data);
      if r.Err? {
        staging.session.Rollback(begin);
      }
    }

    method Run(data: ApplyInput) returns (r: Result<ApplyResult, ApplyError>)
      requires Valid()
      modifies staging.session
      ensures match ApplyPlan(staging.tables, old(staging.session.View()), data)
        case Err(error) => r == Err(error)
        case Ok(applied) => r == Ok(applied.1) && staging.session.View() == applied.0
    {
      if !data.confirmed {
        return Err(ConfirmationRequired);
      }
      var session := staging.session;
      var run := ValidateRun(session.View(), data);
      if run.Err? {
        return Err(run.error);
      }
      var candidate := ValidateCandidate(session.View(), data);
      if candidate.Err? {
        return Err(candidate.error);
      }
      var before := candidate.value;
      if before == Discovered {
        var reviewed := review.ApplyTransition(data.projectId, data.candidateId, Reviewed);
        if reviewed.Err? {
          return Err(NotPersisted);
        }
        if reviewed.value != ReviewResult(data.candidateId, Discovered, Reviewed, true) {
          return Err(Inconsistent);
        }
      } else if before == Rejected {
        return Err(CandidateNotEligible);
      }
      var promoted := promotion.Promote(data.projectId, data.candidateId);
      if promoted.Err? {
        return Err(Inconsistent);
      }
      r := Conclude(session.View(), data, before, promoted.value);
    }
  }
}
