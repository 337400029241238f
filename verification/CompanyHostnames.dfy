/**
 Hostnames of companies over every interleaving of the candidate machine with the two writes that look for no
 duplicate: creating a company directly and setting a company's website, as an enrichment does.
 */
module CompanyHostnames {
  import opened Common
  import opened Platform
  import opened DiscoveryTables
  import opened Companies
  import opened CandidatePromotion
  import opened CandidateLifecycle
  import CompanyEnrichment

  datatype Change = Staging(step: Step) | SetWebsite(companyId: nat, website: string)

  function WithWebsite(s: Store, companyId: nat, website: string): Store
    requires companyId in s.companies
  {
    s.(companies := s.companies[companyId := s.companies[companyId].(website := Some(website))])
  }

  function After(t: Tables, s: Store, change: Change): Store {
    match change
    case Staging(step) => Next(t, s, step)
    case SetWebsite(companyId, website) => if companyId in s.companies then WithWebsite(s, companyId, website) else s
  }

  function History(t: Tables, s: Store, changes: seq<Change>): Store {
    if |changes| == 0 then s else After(t, History(t, s, changes[..|changes| - 1]), changes[|changes| - 1])
  }

  // ----- The candidate machine goes on working ------------------------------------------------------------

  /** Setting a website moves no candidate and keeps the invariant. */
  lemma ChangeKeepsRows(t: Tables, s: Store, change: Change)
    requires Inv(s)
    ensures Inv(After(t, s, change)) && RowsEvolve(s, After(t, s, change))
  {
    match change
    case Staging(step) => StepKeepsRows(t, s, step);
    case SetWebsite(companyId, website) =>
      var after := After(t, s, change);
      forall id | id in after.candidates
        ensures RowIntact(after, id, after.candidates[id])
      {
        assert RowIntact(s, id, s.candidates[id]);
      }
  }

  lemma {:induction false} HistoryKeepsInvariant(t: Tables, s: Store, changes: seq<Change>)
    requires Inv(s)
    ensures Inv(History(t, s, changes))
  {
    if |changes| != 0 {
      HistoryKeepsInvariant(t, s, changes[..|changes| - 1]);
      ChangeKeepsRows(t, History(t, s, changes[..|changes| - 1]), changes[|changes| - 1]);
    }
  }

  // ----- When a change keeps hostnames unique -----------------------------------------------------------

  /** The website has no hostname, or a search for its duplicates finds none. */
  predicate HostIsFree(t: Tables, companies: map<nat, Company>, bound: nat, projectId: nat, website: Option<string>) {
    match HostOf(t, website)
    case Valid(Some(host)) => FindDuplicate(t, companies, bound, projectId, host).None?
    case _ => true
  }

  /** The promoted candidates linked to the company have the hostname of the website. */
  predicate LinksKeepHost(t: Tables, s: Store, companyId: nat, website: string) {
    forall id :: id in s.candidates ==>
      var row := s.candidates[id];
      row.status == Promoted && row.promotedCompany == Some(companyId) && row.fields.website.Some? ==>
        t.websiteHostname(row.fields.website.value) == t.websiteHostname(website)
  }

  predicate HostSafe(t: Tables, s: Store, change: Change) {
    match change
    case Staging(AddCompany(projectId, _, website, _)) =>
      projectId in s.projects ==> HostIsFree(t, s.companies, s.nextCompany, projectId, website)
    case Staging(_) => true
    case SetWebsite(companyId, website) =>
      companyId in s.companies ==>
        && HostIsFree(t, s.companies - {companyId}, s.nextCompany, s.companies[companyId].projectId, Some(website))
        && LinksKeepHost(t, s, companyId, website)
  }

  /**
   Putting a company in a place keeps hostnames unique exactly if no other company of its project has its
   hostname.
   */
  lemma UniqueAfterPlacing(t: Tables, companies: map<nat, Company>, bound: nat, id: nat, company: Company)
    requires UniqueHosts(t, companies - {id}) && forall k :: k in companies && k != id ==> k < bound
    ensures UniqueHosts(t, companies[id := company]) <==>
      HostIsFree(t, companies - {id}, bound, company.projectId, company.website)
  {
    var others, after := companies - {id}, companies[id := company];
    assert forall k :: k in others ==> k in companies && k != id && after[k] == others[k];
    match HostOf(t, company.website)
    case Valid(Some(host)) =>
      var found := FindDuplicate(t, others, bound, company.projectId, host);
      if found.Some? {
        TwoShareAHost(t, after, found.value, id, host);
      } else {
        PlacedAlone(t, others, after, id, company, host);
      }
    case _ => PlacedWithoutHost(t, others, after, id, company);
  }

  lemma TwoShareAHost(t: Tables, companies: map<nat, Company>, a: nat, b: nat, host: string)
    requires a in companies && b in companies && a != b
    requires HasHost(t, companies[a], companies[b].projectId, host)
      && HasHost(t, companies[b], companies[b].projectId, host)
    ensures !UniqueHosts(t, companies)
  {
  }

  lemma PlacedAlone(t: Tables, others: map<nat, Company>, after: map<nat, Company>, id: nat, company: Company,
                    host: string)
    requires UniqueHosts(t, others) && id !in others && after == others[id := company]
    requires HostOf(t, company.website) == Valid(Some(host))
    requires forall k :: k in others ==> !HasHost(t, others[k], company.projectId, host)
    ensures UniqueHosts(t, after)
  {
  }

  lemma PlacedWithoutHost(t: Tables, others: map<nat, Company>, after: map<nat, Company>, id: nat, company: Company)
    requires UniqueHosts(t, others) && id !in others && after == others[id := company]
    requires !(HostOf(t, company.website).Valid? && HostOf(t, company.website).value.Some?)
    ensures UniqueHosts(t, after)
  {
  }

  lemma AddingKeepsHosts(t: Tables, s: Store, projectId: nat, name: string, website: Option<string>,
                         country: Option<string>)
    requires Inv(s) && HostsSafe(t, s)
    ensures HostsSafe(t, CreateCompany(s, projectId, name, website, country)) <==>
      HostIsFree(t, s.companies, s.nextCompany, projectId, website)
  {
    assert s.nextCompany !in s.companies;
    assert s.companies - {s.nextCompany} == s.companies;
    UniqueAfterPlacing(t, s.companies, s.nextCompany, s.nextCompany, Company(projectId, name, website, country));
  }

  lemma LinksAfterSetting(t: Tables, s: Store, companyId: nat, website: string)
    requires Inv(s) && LinkedByHost(t, s) && companyId in s.companies
    ensures LinkedByHost(t, WithWebsite(s, companyId, website)) <==> LinksKeepHost(t, s, companyId, website)
  {
    var after := WithWebsite(s, companyId, website);
    forall id | id in s.candidates && s.candidates[id].status == Promoted && s.candidates[id].fields.website.Some?
      ensures var row := s.candidates[id];
        && row.promotedCompany.Some? && row.promotedCompany.value in s.companies
        && PromotableWebsite(t, row.fields.website)
        && s.companies[row.promotedCompany.value].projectId == row.projectId
    {
      assert RowIntact(s, id, s.candidates[id]);
    }
    if LinksKeepHost(t, s, companyId, website) {
      assert LinkedByHost(t, after);
    }
    if LinkedByHost(t, after) {
      assert LinksKeepHost(t, s, companyId, website);
    }
  }

  lemma SettingKeepsHosts(t: Tables, s: Store, companyId: nat, website: string)
    requires Inv(s) && HostsSafe(t, s) && companyId in s.companies
    ensures HostsSafe(t, WithWebsite(s, companyId, website)) <==> HostSafe(t, s, SetWebsite(companyId, website))
  {
    UniqueAfterPlacing(t, s.companies, s.nextCompany, companyId, s.companies[companyId].(website := Some(website)));
    LinksAfterSetting(t, s, companyId, website);
  }

  /**
   A change keeps hostnames unique per project and promoted candidates linked by theirs exactly if what it writes
   without looking is free: for a created company no other has its hostname, for a website set on a company moreover
   the candidates linked to that company have the hostname.
   */
  lemma ChangeKeepsHostsExactlyWhen(t: Tables, s: Store, change: Change)
    requires Inv(s) && HostsSafe(t, s)
    ensures HostsSafe(t, After(t, s, change)) <==> HostSafe(t, s, change)
  {
    match change
    case Staging(step) =>
      if step.AddCompany? {
        AddingKeepsHosts(t, s, step.projectId, step.name, step.website, step.country);
      } else {
        StepKeepsHosts(t, s, step);
      }
    case SetWebsite(companyId, website) =>
      if companyId in s.companies {
        SettingKeepsHosts(t, s, companyId, website);
      }
  }

  // ----- Over every history -------------------------------------------------------------------------------

  /** Hostnames are unique and links follow them after every change of the history. */
  ghost predicate SafeThroughout(t: Tables, s: Store, changes: seq<Change>) {
    && HostsSafe(t, History(t, s, changes))
    && (|changes| != 0 ==> SafeThroughout(t, s, changes[..|changes| - 1]))
  }

  /** Every change was host-safe when it was made. */
  predicate EachHostSafe(t: Tables, s: Store, changes: seq<Change>) {
    |changes| != 0 ==>
      && EachHostSafe(t, s, changes[..|changes| - 1])
      && HostSafe(t, History(t, s, changes[..|changes| - 1]), changes[|changes| - 1])
  }

  /**
   Hostnames stay unique throughout a history exactly if each direct creation and each website set was free
   at its time.
   */
  lemma {:induction false} SafeExactlyWhenEachChangeIs(t: Tables, s: Store, changes: seq<Change>)
    requires Inv(s) && HostsSafe(t, s)
    ensures SafeThroughout(t, s, changes) <==> EachHostSafe(t, s, changes)
  {
    if |changes| != 0 {
      var front := changes[..|changes| - 1];
      SafeExactlyWhenEachChangeIs(t, s, front);
      if SafeThroughout(t, s, front) {
        HistoryKeepsInvariant(t, s, front);
        ChangeKeepsHostsExactlyWhen(t, History(t, s, front), changes[|changes| - 1]);
      }
    }
  }

  /**
   As long as each change is free at its time, promoted candidates of a project with one hostname share their
   company.
   */
  lemma OneCompanyPerHostname(t: Tables, s: Store, changes: seq<Change>, a: nat, b: nat)
    requires Inv(s) && HostsSafe(t, s) && EachHostSafe(t, s, changes)
    requires var now := History(t, s, changes).candidates;
      && a in now && b in now && now[a].projectId == now[b].projectId
      && now[a].status == Promoted && now[b].status == Promoted && now[a].fields.website.Some?
      && now[b].fields.website.Some?
      && t.websiteHostname(now[a].fields.website.value) == t.websiteHostname(now[b].fields.website.value)
    ensures var now := History(t, s, changes).candidates; now[a].promotedCompany == now[b].promotedCompany
  {
    SafeExactlyWhenEachChangeIs(t, s, changes);
    SameHostSameCompany(t, History(t, s, changes), a, b);
  }

  // ----- Two companies, one hostname ----------------------------------------------------------------------

  function NewProject(): Store {
    Store(map[], {1}, map[], 1, map[], 1, map[], 1)
  }

  /**
   Creating two companies with one website, or giving the website of one to the other, leaves two with one
   hostname.
   */
  lemma TwoCompaniesOneHost(t: Tables, website: string, host: string)
    requires t.websiteHostname(website) == Valid(Some(host))
    ensures Inv(NewProject()) && HostsSafe(t, NewProject())
    ensures !UniqueHosts(t, History(t, NewProject(), [
      Staging(AddCompany(1, "a", Some(website), None)), Staging(AddCompany(1, "b", Some(website), None))]).companies)
    ensures !UniqueHosts(t, History(t, NewProject(), [
      Staging(AddCompany(1, "a", Some(website), None)), Staging(AddCompany(1, "b", None, None)),
      SetWebsite(2, website)]).companies)
  {
    var s := NewProject();
    var first := Staging(AddCompany(1, "a", Some(website), None));
    var again, bare := Staging(AddCompany(1, "b", Some(website), None)), Staging(AddCompany(1, "b", None, None));
    var one := CreateCompany(s, 1, "a", Some(website), None);
    assert History(t, s, []) == s;
    HistorySnoc(t, s, [], first);
    assert [] + [first] == [first] && [first] + [again] == [first, again] && [first] + [bare] == [first, bare];
    HistorySnoc(t, s, [first], again);
    TwoShareAHost(t, History(t, s, [first, again]).companies, 1, 2, host);
    HistorySnoc(t, s, [first], bare);
    HistorySnoc(t, s, [first, bare], SetWebsite(2, website));
    assert [first, bare] + [SetWebsite(2, website)] == [first, bare, SetWebsite(2, website)];
    TwoShareAHost(t, History(t, s, [first, bare, SetWebsite(2, website)]).companies, 1, 2, host);
  }

  lemma HistorySnoc(t: Tables, s: Store, changes: seq<Change>, change: Change)
    ensures History(t, s, changes + [change]) == After(t, History(t, s, changes), change)
  {
    assert (changes + [change])[..|changes|] == changes;
  }

  // ----- Enrichment sets websites --------------------------------------------------------------------------

  function WebsitesOf(s: Store): map<nat, string> {
    map id | id in s.companies && s.companies[id].website.Some? :: s.companies[id].website.value
  }

  /** What an enrichment does to the websites of the companies is to set the one it takes, if it takes one. */
  lemma EnrichmentSetsWebsite(p: CompanyEnrichment.Provider, e: CompanyEnrichment.EnrichmentStore, t: Tables, s: Store,
                              companyId: nat, reply: Option<CompanyEnrichment.Report>, overwrite: bool)
    requires companyId in s.companies && e.websites == WebsitesOf(s)
    ensures var website := CompanyEnrichment.Candidate(p, reply, CompanyEnrichment.Website);
      CompanyEnrichment.Enriched(p, e, companyId, reply, overwrite).websites ==
      if CompanyEnrichment.Takes(website, CompanyEnrichment.ValueOf(e, companyId, CompanyEnrichment.Website), overwrite)
      then WebsitesOf(After(t, s, SetWebsite(companyId, website.value))) else WebsitesOf(s)
  {
    var website := CompanyEnrichment.Candidate(p, reply, CompanyEnrichment.Website);
    if website.Some? {
      assert WebsitesOf(WithWebsite(s, companyId, website.value)) == WebsitesOf(s)[companyId := website.value];
    }
  }
}
