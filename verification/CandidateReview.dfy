/** Reviewing and rejecting staged candidates. */
module CandidateReview {
  import opened Common
  import opened DiscoveryTables
  import opened StagingRepository

  datatype ReviewError = ReviewNotFound | TransitionNotAllowed

  datatype ReviewResult = ReviewResult(candidateId: nat, previous: CandidateStatus, current: CandidateStatus,
                                       changed: bool)

  predicate IsAllowedTransition(current: CandidateStatus, next: CandidateStatus) {
    match current
    case Discovered => next == Reviewed || next == Rejected
    case Reviewed => next == Reviewed || next == Rejected
    case Rejected => next == Rejected
    case Promoted => false
  }

  /** The table operation behind `mark_reviewed` and `reject`. */
  function Transition(s: Store, projectId: nat, candidateId: nat, next: CandidateStatus):
    Result<(Store, ReviewResult), ReviewError>
  {
    if next !in {Reviewed, Rejected} then Err(TransitionNotAllowed)
    else if !InProject(s, projectId, candidateId) then Err(ReviewNotFound)
    else
      var row := s.candidates[candidateId];
      if !IsAllowedTransition(row.status, next) then Err(TransitionNotAllowed)
      else Ok((s.(candidates := s.candidates[candidateId := row.(status := next)]),
               ReviewResult(candidateId, row.status, next, row.status != next)))
  }

  class CompanyDiscoveryCandidateReviewService {
    const repository: CompanyDiscoveryStagingRepository

    constructor (repository: CompanyDiscoveryStagingRepository)
      ensures this.repository == repository
    {
      this.repository := repository;
    }

    method ApplyTransition(projectId: nat, candidateId: nat, next: CandidateStatus)
      returns (r: Result<ReviewResult, ReviewError>)
      modifies repository.session
      ensures var spec := Transition(old(repository.session.View()), projectId, candidateId, next);
        && (spec.Ok? ==> r == Ok(spec.value.1) && repository.session.View() == spec.value.0)
        && (spec.Err? ==> r == Err(spec.error) && repository.session.View() == old(repository.session.View()))
    {
      if next !in {Reviewed, Rejected} {
        return Err(TransitionNotAllowed);
      }
      var session := repository.session;
      if candidateId !in session.candidates || session.candidates[candidateId].projectId != projectId {
        return Err(ReviewNotFound);
      }
      var previous := session.candidates[candidateId].status;
      if !IsAllowedTransition(previous, next) {
        return Err(TransitionNotAllowed);
      }
      var changed := false;
      if previous != next {
        var _ := repository.SetCandidateStatus(projectId, candidateId, next);
        changed := true;
      }
      assert session.candidates
        == old(session.candidates)[candidateId := old(session.candidates)[candidateId].(status := next)];
      r := Ok(ReviewResult(candidateId, previous, next, changed));
    }
  }
}
