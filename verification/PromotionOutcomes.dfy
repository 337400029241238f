/** What reviews, promotions and applies leave behind, row by row: the transition, the company and the link. */
module PromotionOutcomes {
  import opened Common
  import opened Platform
  import opened Text
  import opened StagingNormalization
  import opened DiscoveryTables
  import opened CandidateReview
  import opened Companies
  import opened CandidatePromotion
  import opened CompanyApply
  import opened CandidateLifecycle

  // ----- Reviews ------------------------------------------------------------------------------------------

  /**
   A review or rejection succeeds exactly on a row of the project that may move there, sets the status and nothing
   else, and reports the statuses before and after.
   */
  lemma ReviewedExactlyWhen(s: Store, projectId: nat, candidateId: nat, next: CandidateStatus)
    ensures Transition(s, projectId, candidateId, next).Ok? <==>
      && candidateId in s.candidates && s.candidates[candidateId].projectId == projectId
      && (s.candidates[candidateId].status, next) in
         {(Discovered, Reviewed), (Discovered, Rejected), (Reviewed, Reviewed), (Reviewed, Rejected),
          (Rejected, Rejected)}
    ensures Transition(s, projectId, candidateId, next).Ok? ==>
      var (after, r) := Transition(s, projectId, candidateId, next).value;
      var row := s.candidates[candidateId];
      && after == s.(candidates := s.candidates[candidateId := row.(status := next)])
      && r == ReviewResult(candidateId, row.status, next, row.status != next)
  {
  }

  // ----- Promotions -----------------------------------------------------------------------------------------

  ghost predicate CompaniesKeyed(s: Store) {
    forall id :: id in s.companies ==> id < s.nextCompany
  }

  predicate HostIs(t: Tables, company: Company, projectId: nat, host: string) {
    && company.projectId == projectId && company.website.Some?
    && t.websiteHostname(company.website.value) == Valid(Some(host))
  }

  /** The company with the lowest id among those of a project with a hostname. */
  ghost predicate LowestWithHost(t: Tables, s: Store, projectId: nat, host: string, id: nat) {
    && id in s.companies && HostIs(t, s.companies[id], projectId, host)
    && forall other :: other in s.companies && HostIs(t, s.companies[other], projectId, host) ==> id <= other
  }

  ghost predicate NobodyHasHost(t: Tables, s: Store, projectId: nat, host: string) {
    forall id :: id in s.companies ==> !HostIs(t, s.companies[id], projectId, host)
  }

  /** The name, website and country a candidate gives its company. */
  predicate CompanyOf(t: Tables, projectId: nat, n: Normalized, company: Company) {
    && company.projectId == projectId && company.website == n.website && company.country == n.countryCode
    && n.name.Some? && company.name == Collapse(t.nfkc(n.name.value))
  }

  /** The company a promotion settles on: a new one with the candidate's values, or the lowest with its hostname. */
  ghost predicate CompanySettled(t: Tables, s: Store, after: Store, projectId: nat, n: Normalized, companyId: nat,
                                 created: bool)
  {
    if created then
      && companyId == s.nextCompany && after.nextCompany == s.nextCompany + 1 && companyId in after.companies
      && after.companies == s.companies[companyId := after.companies[companyId]]
      && CompanyOf(t, projectId, n, after.companies[companyId])
      && (n.website.Some? ==>
          && t.websiteHostname(n.website.value).Valid? && t.websiteHostname(n.website.value).value.Some?
          && NobodyHasHost(t, s, projectId, t.websiteHostname(n.website.value).value.value))
    else
      && after.companies == s.companies && after.nextCompany == s.nextCompany && n.website.Some?
      && t.websiteHostname(n.website.value).Valid? && t.websiteHostname(n.website.value).value.Some?
      && LowestWithHost(t, s, projectId, t.websiteHostname(n.website.value).value.value, companyId)
  }

  lemma FoundOrCreated(t: Tables, s: Store, projectId: nat, n: Normalized)
    requires CompaniesKeyed(s) && Promotable(t, n)
    ensures var (after, companyId) := FindOrCreateCompany(t, s, projectId, n);
      && CompanySettled(t, s, after, projectId, n, companyId, companyId !in s.companies)
      && (companyId !in s.companies <==> after != s)
      && after == s.(companies := after.companies, nextCompany := after.nextCompany)
  {
    var (after, companyId) := FindOrCreateCompany(t, s, projectId, n);
    if companyId in s.companies {
      HostsOf(t, s, projectId, t.websiteHostname(n.website.value).value.value);
    } else {
      assert after.nextCompany == s.nextCompany + 1;
      if n.website.Some? {
        HostsOf(t, s, projectId, t.websiteHostname(n.website.value).value.value);
      }
    }
  }

  lemma HostsOf(t: Tables, s: Store, projectId: nat, host: string)
    ensures forall id :: id in s.companies ==>
      (HasHost(t, s.companies[id], projectId, host) <==> HostIs(t, s.companies[id], projectId, host))
  {
  }

  /** What a promotion that returns leaves: the row linked to its company, and the company it settled on. */
  ghost predicate PromotedTo(t: Tables, s: Store, after: Store, projectId: nat, candidateId: nat, companyId: nat,
                             created: bool)
    requires candidateId in s.candidates
  {
    var row := s.candidates[candidateId];
    if row.status == Promoted then
      after == s && row.promotedCompany == Some(companyId) && !created
    else
      && after == s.(candidates := s.candidates[candidateId := row.(status := Promoted,
                                                                    promotedCompany := Some(companyId))],
                     companies := after.companies, nextCompany := after.nextCompany)
      && CompanySettled(t, s, after, projectId, row.fields, companyId, created)
  }

  /** A promotion that returns took a REVIEWED or PROMOTED row of the project, and left what is said above. */
  lemma PromotionLeaves(t: Tables, s: Store, projectId: nat, candidateId: nat)
    requires CompaniesKeyed(s) && PromoteCandidate(t, s, projectId, candidateId).Ok?
    ensures InProject(s, projectId, candidateId)
    ensures var (after, r) := PromoteCandidate(t, s, projectId, candidateId).value;
      && PromotedTo(t, s, after, projectId, candidateId, r.companyId, r.created)
      && r.previous == s.candidates[candidateId].status && r.previous in {Reviewed, Promoted}
      && r.changed == (r.previous == Reviewed)
  {
    var row := s.candidates[candidateId];
    if row.status != Promoted {
      FoundOrCreated(t, s, projectId, row.fields);
    }
  }

  /** A successful apply leaves what the promotion leaves, whether it reviewed the candidate first or not. */
  lemma ApplyLeaves(t: Tables, s: Store, data: ApplyInput)
    requires CompaniesKeyed(s) && ApplyPlan(t, s, data).Ok?
    ensures InProject(s, data.projectId, data.candidateId)
    ensures var (after, r) := ApplyPlan(t, s, data).value;
      && PromotedTo(t, s, after, data.projectId, data.candidateId, r.companyId, r.companyCreated)
      && r.before == s.candidates[data.candidateId].status && r.companyReused == !r.companyCreated
  {
    ApplyIsReviewThenPromote(t, s, data);
    var reviewed := ReviewedFirst(s, data.projectId, data.candidateId);
    PromotionLeaves(t, reviewed, data.projectId, data.candidateId);
    ApplyReports(t, s, data);
  }

  lemma ApplyReports(t: Tables, s: Store, data: ApplyInput)
    requires ApplyPlan(t, s, data).Ok?
    ensures var r := ApplyPlan(t, s, data).value.1;
      var promoted := PromoteCandidate(t, ReviewedFirst(s, data.projectId, data.candidateId), data.projectId,
                                       data.candidateId);
      && promoted.Ok? && r.companyId == promoted.value.1.companyId && r.companyCreated == promoted.value.1.created
      && r.companyReused == !r.companyCreated && InProject(s, data.projectId, data.candidateId)
      && r.before == s.candidates[data.candidateId].status
  {
  }

  /** The name of a stored candidate reaches its company unchanged. */
  lemma StoredNameIsTheCompanys(t: Tables, projectId: nat, n: Normalized, company: Company)
    requires NormalForm(t, n) && CompanyOf(t, projectId, n, company)
    ensures Some(company.name) == n.name
  {
    NormalIsFixed(n.name.value);
  }
}
