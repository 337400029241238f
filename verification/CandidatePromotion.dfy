/** Promoting a reviewed candidate to a company, reusing a company that has its hostname. */
module CandidatePromotion {
  import opened Common
  import opened Platform
  import opened StagingNormalization
  import opened DiscoveryTables
  import opened StagingRepository
  import opened Companies

  datatype PromotionError = PromotionNotFound | NotEligible | InvalidData | InconsistentState

  datatype PromotionResult = PromotionResult(
    companyId: nat, previous: CandidateStatus, created: bool, changed: bool)

  function PromotionName(t: Tables, value: Option<string>): Checked<string> {
    if value.None? then Invalid
    else match NormalizeDisplayName(t, value)
      case Valid(Some(name)) => if |name| > 255 then Invalid else Valid(name)
      case _ => Invalid
  }

  predicate PromotableWebsite(t: Tables, website: Option<string>) {
    website.Some? ==>
      |website.value| <= 255 && t.websiteHostname(website.value).Valid? && t.websiteHostname(website.value).value.Some?
  }

  /** The data a candidate must carry to become a company. */
  predicate Promotable(t: Tables, n: Normalized) {
    && PromotionName(t, n.name).Valid?
    && PromotableWebsite(t, n.website)
    && (n.countryCode.Some? ==> |n.countryCode.value| <= 100)
  }

  /** The company a candidate with these fields is linked to, and the tables with it in place. */
  function FindOrCreateCompany(t: Tables, s: Store, projectId: nat, n: Normalized): (Store, nat)
    requires Promotable(t, n)
  {
    var duplicate :=
      if n.website.None? then None
      else FindDuplicate(t, s.companies, s.nextCompany, projectId, t.websiteHostname(n.website.value).value.value);
    match duplicate
    case Some(id) => (s, id)
    case None => (CreateCompany(s, projectId, PromotionName(t, n.name).value, n.website, n.countryCode), s.nextCompany)
  }

  predicate UsableCompany(s: Store, projectId: nat, companyId: nat) {
    companyId > 0 && companyId in s.companies && s.companies[companyId].projectId == projectId
  }

  function ExistingPromotion(s: Store, projectId: nat, row: Candidate): Result<PromotionResult, PromotionError> {
    if row.promotedCompany.Some? && UsableCompany(s, projectId, row.promotedCompany.value) then
      Ok(PromotionResult(row.promotedCompany.value, Promoted, false, false))
    else Err(InconsistentState)
  }

  function PromoteCandidate(t: Tables, s: Store, projectId: nat, candidateId: nat):
    Result<(Store, PromotionResult), PromotionError>
  {
    if projectId !in s.projects || !InProject(s, projectId, candidateId) then Err(PromotionNotFound)
    else
      var row := s.candidates[candidateId];
      if row.status == Promoted then
        match ExistingPromotion(s, projectId, row)
        case Err(error) => Err(error)
        case Ok(result) => Ok((s, result))
      else if row.status != Reviewed then Err(NotEligible)
      else if row.promotedCompany.Some? then Err(InconsistentState)
      else if !Promotable(t, row.fields) then Err(InvalidData)
      else
        var (after, companyId) := FindOrCreateCompany(t, s, projectId, row.fields);
        if !UsableCompany(after, projectId, companyId) then Err(InconsistentState)
        else match LinkPromotedCompany(after, projectId, candidateId, companyId)
          case Err(_) => Err(InconsistentState)
          case Ok(linked) => Ok((linked, PromotionResult(companyId, Reviewed, after != s, true)))
  }

  class CompanyDiscoveryCandidatePromotionService {
    const staging: CompanyDiscoveryStagingRepository
    const companies: CompanyRepository

    constructor (staging: CompanyDiscoveryStagingRepository, companies: CompanyRepository)
      requires staging.session == companies.session && staging.tables == companies.tables
      ensures this.staging == staging && this.companies == companies && Valid()
    {
      this.staging, this.companies := staging, companies;
    }

    ghost predicate Valid() {
      staging.session == companies.session && staging.tables == companies.tables
    }

    /** On an error the caller rolls the session back, so nothing is said about it then. */
    method Promote(projectId: nat, candidateId: nat) returns (r: Result<PromotionResult, PromotionError>)
      requires Valid()
      modifies staging.session
      ensures match PromoteCandidate(staging.tables, old(staging.session.View()), projectId, candidateId)
        case Err(error) => r == Err(error)
        case Ok(promoted) => r == Ok(promoted.1) && staging.session.View() == promoted.0
    {
      var session := staging.session;
      if projectId !in session.projects {
        return Err(PromotionNotFound);
      }
      if candidateId !in session.candidates || session.candidates[candidateId].projectId != projectId {
        return Err(PromotionNotFound);
      }
      var row := session.candidates[candidateId];
      if row.status == Promoted {
        return ExistingPromotion(session.View(), projectId, row);
      }
      if row.status != Reviewed {
        return Err(NotEligible);
      }
      if row.promotedCompany.Some? {
        return Err(InconsistentState);
      }
      var name := PromotionName(staging.tables, row.fields.name);
      if name.Invalid? || !PromotableWebsite(staging.tables, row.fields.website)
         || (row.fields.countryCode.Some? && |row.fields.countryCode.value| > 100) {
        return Err(InvalidData);
      }
      var company: Option<nat> := None;
      if row.fields.website.Some? {
        var lookup := companies.FindDuplicateByWebsite(projectId, row.fields.website.value);
        if lookup.Invalid? {
          return Err(InvalidData);
        }
        company := lookup.value;
      }
      var created := company.None?;
      if company.None? {
        var id := companies.CreateForPromotion(projectId, name.value, row.fields.website, row.fields.countryCode);
        company := Some(id);
      }
      if !UsableCompany(session.View(), projectId, company.value) {
        return Err(InconsistentState);
      }
      var linked := staging.LinkPromotedCompany(projectId, candidateId, company.value);
      if linked.Err? {
        return Err(InconsistentState);
      }
      r := Ok(PromotionResult(company.value, Reviewed, created, true));
    }
  }

  // ----- One company per hostname ----------------------------------------------------------------

  /** No two companies of a project share a hostname. */
  ghost predicate UniqueHosts(t: Tables, companies: map<nat, Company>) {
    forall a, b, host ::
      && a in companies && b in companies
      && HasHost(t, companies[a], companies[b].projectId, host)
      && HasHost(t, companies[b], companies[b].projectId, host)
      ==> a == b
  }

  /** A promoted candidate with a website is linked to a company with that website's hostname. */
  ghost predicate LinkedByHost(t: Tables, s: Store) {
    forall id :: id in s.candidates && s.candidates[id].status == Promoted && s.candidates[id].fields.website.Some? ==>
      var row := s.candidates[id];
      && row.promotedCompany.Some? && row.promotedCompany.value in s.companies
      && PromotableWebsite(t, row.fields.website)
      && HasHost(t, s.companies[row.promotedCompany.value], row.projectId,
                 t.websiteHostname(row.fields.website.value).value.value)
  }

  lemma FindOrCreateKeepsHosts(t: Tables, s: Store, projectId: nat, n: Normalized)
    requires Promotable(t, n) && UniqueHosts(t, s.companies)
    requires forall id :: id in s.companies ==> id < s.nextCompany
    ensures var (after, companyId) := FindOrCreateCompany(t, s, projectId, n);
      && UniqueHosts(t, after.companies) && companyId in after.companies
      && (n.website.Some? ==>
          HasHost(t, after.companies[companyId], projectId, t.websiteHostname(n.website.value).value.value))
      && (forall id :: id in s.companies ==> id in after.companies && after.companies[id] == s.companies[id])
  {
  }

  /** Promotion creates no second company for a hostname, and links every candidate to its hostname's company. */
  lemma PromotionKeepsHosts(t: Tables, s: Store, projectId: nat, candidateId: nat)
    requires UniqueHosts(t, s.companies) && LinkedByHost(t, s)
    requires forall id :: id in s.companies ==> id < s.nextCompany
    requires PromoteCandidate(t, s, projectId, candidateId).Ok?
    ensures var after := PromoteCandidate(t, s, projectId, candidateId).value.0;
      UniqueHosts(t, after.companies) && LinkedByHost(t, after)
  {
    var row := s.candidates[candidateId];
    if row.status == Reviewed {
      FindOrCreateKeepsHosts(t, s, projectId, row.fields);
    }
  }

  /** Two promoted candidates of a project whose websites have one hostname share their company. */
  lemma SameHostSameCompany(t: Tables, s: Store, a: nat, b: nat)
    requires UniqueHosts(t, s.companies) && LinkedByHost(t, s)
    requires a in s.candidates && b in s.candidates && s.candidates[a].projectId == s.candidates[b].projectId
    requires s.candidates[a].status == Promoted && s.candidates[b].status == Promoted
    requires s.candidates[a].fields.website.Some? && s.candidates[b].fields.website.Some?
    requires t.websiteHostname(s.candidates[a].fields.website.value)
      == t.websiteHostname(s.candidates[b].fields.website.value)
    ensures s.candidates[a].promotedCompany == s.candidates[b].promotedCompany
  {
  }
}
