/** Company rows as promotion sees them: looked up by website hostname, created without one being checked. */
module Companies {
  import opened Common
  import opened Platform
  import opened DiscoveryTables

  /** The hostname a website is compared by; a missing website has none. */
  function HostOf(t: Tables, website: Option<string>): Checked<Option<string>> {
    if website.None? then Valid(None) else t.websiteHostname(website.value)
  }

  predicate HasHost(t: Tables, company: Company, projectId: nat, host: string) {
    company.projectId == projectId && HostOf(t, company.website) == Valid(Some(host))
  }

  /** The company of a project with the lowest id below `bound` that has the hostname. */
  function FindDuplicate(t: Tables, companies: map<nat, Company>, bound: nat, projectId: nat, host: string):
    (found: Option<nat>)
    ensures found.Some? ==>
      && found.value in companies && found.value < bound && HasHost(t, companies[found.value], projectId, host)
      && forall id :: id in companies && id < found.value ==> !HasHost(t, companies[id], projectId, host)
    ensures found.None? ==> forall id :: id in companies && id < bound ==> !HasHost(t, companies[id], projectId, host)
  {
    if bound == 0 then None
    else
      var earlier := FindDuplicate(t, companies, bound - 1, projectId, host);
      if earlier.Some? then earlier
      else if bound - 1 in companies && HasHost(t, companies[bound - 1], projectId, host) then Some(bound - 1)
      else None
  }

  lemma LowestIsFound(t: Tables, companies: map<nat, Company>, bound: nat, projectId: nat, host: string, id: nat)
    requires id in companies && id < bound && HasHost(t, companies[id], projectId, host)
    requires forall other :: other in companies && other < id ==> !HasHost(t, companies[other], projectId, host)
    ensures FindDuplicate(t, companies, bound, projectId, host) == Some(id)
  {
  }

  function CreateCompany(s: Store, projectId: nat, name: string, website: Option<string>, country: Option<string>):
    Store
  {
    s.(companies := s.companies[s.nextCompany := Company(projectId, name, website, country)],
       nextCompany := s.nextCompany + 1)
  }

  class CompanyRepository {
    const tables: Tables
    const session: Session

    constructor (tables: Tables, session: Session)
      ensures this.tables == tables && this.session == session
    {
      this.tables, this.session := tables, session;
    }

    /** Walks the companies in id order and stops at the first of the project with the same hostname. */
    method FindDuplicateByWebsite(projectId: nat, website: string) returns (found: Checked<Option<nat>>)
      ensures match tables.websiteHostname(website)
        case Invalid => found == Invalid
        case Valid(None) => found == Valid(None)
        case Valid(Some(host)) =>
          found == Valid(FindDuplicate(tables, session.companies, session.nextCompany, projectId, host))
    {
      var hostname := tables.websiteHostname(website);
      if hostname.Invalid? {
        return Invalid;
      }
      if hostname.value.None? {
        return Valid(None);
      }
      var host := hostname.value.value;
      for id := 0 to session.nextCompany
        invariant forall k :: k in session.companies && k < id ==>
          !HasHost(tables, session.companies[k], projectId, host)
      {
        if id in session.companies && session.companies[id].projectId == projectId {
          var existing := HostOf(tables, session.companies[id].website);
          if existing.Valid? && existing.value == Some(host) {
            LowestIsFound(tables, session.companies, session.nextCompany, projectId, host, id);
            return Valid(Some(id));
          }
        }
      }
      found := Valid(None);
    }

    method CreateForPromotion(projectId: nat, name: string, website: Option<string>, country: Option<string>)
      returns (id: nat)
      modifies session
      ensures id == old(session.nextCompany)
      ensures session.View() == CreateCompany(old(session.View()), projectId, name, website, country)
    {
      id := session.nextCompany;
      session.companies := session.companies[id := Company(projectId, name, website, country)];
      session.nextCompany := id + 1;
    }
  }
}
