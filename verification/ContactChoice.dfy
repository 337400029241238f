/** The contact a plan chooses and what it reports of it, by the stored candidates. */
module ContactChoice {
  import opened Common
  import opened Text
  import opened DiscoveryTables
  import opened ContactPlanHandoff
  import opened ContactApply
  import opened ContactPlan

  /** A stored candidate that may be chosen: found and not yet reviewed, of the company, and with a name. */
  predicate MayBeChosen(x: Persisted, companyId: nat) {
    && x.row.status == Discovered && x.id > 0 && x.row.companyId == companyId && Strip(x.row.key) != ""
    && x.row.confidence <= 100 && x.row.name.Some? && Collapse(x.row.name.value) != ""
  }

  predicate HasAddress(x: Persisted) {
    x.row.email.Some? && Collapse(x.row.email.value) != ""
  }

  /** The rank of a title: the first group of roles one of whose phrases it contains. */
  function RoleOf(reading: Reading, x: Persisted): nat {
    RolePriority(PhraseTokens(reading, if x.row.title.Some? then Collapse(x.row.title.value) else ""), ROLE_GROUPS)
  }

  /**
   One candidate is no worse than another: its role ranks first; if the roles are equal it has an address if the other
   does; if that is equal too its confidence is no lower; and if all is equal its id is lower.
   */
  predicate NoWorse(reading: Reading, a: Persisted, b: Persisted) {
    && RoleOf(reading, a) <= RoleOf(reading, b)
    && (RoleOf(reading, a) == RoleOf(reading, b) ==>
        && (HasAddress(b) ==> HasAddress(a))
        && (HasAddress(a) == HasAddress(b) ==>
            a.row.confidence >= b.row.confidence && (a.row.confidence == b.row.confidence ==> a.id < b.id)))
  }

  lemma RankMeansNoWorse(reading: Reading, a: Persisted, b: Persisted)
    requires RanksBefore(reading, ROLE_GROUPS, a, b)
    ensures NoWorse(reading, a, b)
  {
    RoleOfTitle(reading, a);
    RoleOfTitle(reading, b);
  }

  lemma RoleOfTitle(reading: Reading, x: Persisted)
    ensures Role(reading, ROLE_GROUPS, x) == RoleOf(reading, x)
  {
  }

  lemma EligibleMayBeChosen(x: Persisted, companyId: nat)
    ensures EligibleContact(x, companyId) <==> MayBeChosen(x, companyId)
  {
  }

  /** What a report says of its company, its run and its choice. */
  predicate ReportSays(data: ContactPlanInput, company: CompanyRow, raw: DiscoveryRun, report: ContactPlanReport) {
    && report.projectId == data.projectId && report.companyId == data.companyId
    && report.companyName == Collapse(company.name)
    && company.website.Some? && report.website == Collapse(company.website.value)
    && report.goal == Collapse(data.goal) && report.status == raw.status && report.attemptedPages == raw.attemptedPages
    && report.successfulPages == raw.successfulPages && report.selectedUrls == raw.selectedUrls
    && report.upserts == raw.upserts
    && (report.choice.Chosen? ==>
        && report.choice.candidate.row.name.Some?
        && report.choice.proposals == BuildProposals(Collapse(company.name),
                                                     Collapse(report.choice.candidate.row.name.value),
                                                     ContactText(report.choice.candidate.row.title),
                                                     Collapse(data.goal)))
  }

  lemma PlanSays(rules: Rules, reading: Reading, data: ContactPlanInput, projectFound: bool,
                 company: Option<CompanyRow>, provided: Provided, state: Option<StateRow>, report: ContactPlanReport)
    requires PlanContact(rules, reading, data, projectFound, company, provided, state) == Ok(report)
    ensures company.Some? && provided.Provider? && provided.run.Some?
    ensures ReportSays(data, company.value, provided.run.value, report)
  {
    ReadsExactlyWhen(data, projectFound, company);
    var texts := ReadCompany(data, projectFound, company).value;
    var persisted := ValidatedDiscovery(provided.run.value, data.companyId).value;
    ConcludedSays(rules, reading, data, company.value, texts, ContactText(provided.name).value, state.value,
                  provided.run.value, persisted, report);
  }

  lemma ConcludedSays(rules: Rules, reading: Reading, data: ContactPlanInput, company: CompanyRow,
                      texts: (string, string), provider: string, state: StateRow, raw: DiscoveryRun,
                      persisted: seq<Persisted>, report: ContactPlanReport)
    requires Conclude(rules, reading, data, company, texts, provider, state, raw, persisted) == Ok(report)
    requires company.website.Some? && texts == (Collapse(company.name), Collapse(company.website.value))
    ensures ReportSays(data, company, raw, report)
  {
  }

  /**
   A plan that reports chooses nobody exactly if none of the snapshots it keeps may be chosen, and otherwise one that
   may be and is no worse than any other.
   */
  lemma BestIsChosen(rules: Rules, reading: Reading, data: ContactPlanInput, projectFound: bool,
                     company: Option<CompanyRow>, provided: Provided, state: Option<StateRow>,
                     report: ContactPlanReport)
    requires PlanContact(rules, reading, data, projectFound, company, provided, state) == Ok(report)
    ensures provided.Provider? && provided.run.Some?
    ensures ValidatedDiscovery(provided.run.value, data.companyId).Valid?
    ensures var kept := ValidatedDiscovery(provided.run.value, data.companyId).value;
      match report.choice
      case Nobody => forall x :: x in kept ==> !MayBeChosen(x, data.companyId)
      case Chosen(chosen, _, _) =>
        && chosen in kept && MayBeChosen(chosen, data.companyId)
        && forall x :: x in kept && MayBeChosen(x, data.companyId) && x != chosen ==> NoWorse(reading, chosen, x)
  {
    var kept := ValidatedDiscovery(provided.run.value, data.companyId).value;
    var eligible := EligibleContacts(kept, data.companyId);
    KeptAreDistinct(provided.run.value, data.companyId);
    EligibleAreListed(kept, data.companyId);
    SelectedIsBest(reading, ROLE_GROUPS, eligible);
    ChoiceIsTheFirst(rules, reading, data, projectFound, company, provided, state, report);
    forall x: Persisted
      ensures EligibleContact(x, data.companyId) <==> MayBeChosen(x, data.companyId)
    {
      EligibleMayBeChosen(x, data.companyId);
    }
    if report.choice.Chosen? {
      var chosen := report.choice.candidate;
      forall x | x in eligible && x != chosen
        ensures NoWorse(reading, chosen, x)
      {
        RankMeansNoWorse(reading, chosen, x);
      }
    }
  }

  lemma KeptAreDistinct(raw: DiscoveryRun, companyId: nat)
    requires ValidatedDiscovery(raw, companyId).Valid?
    ensures DistinctCandidates(ValidatedDiscovery(raw, companyId).value)
  {
    if raw.status == Succeeded || raw.status == Partial {
      UniqueAreLatest(Paired(raw.persisted, raw.expectedKeys), companyId);
    }
  }

  lemma ChoiceIsTheFirst(rules: Rules, reading: Reading, data: ContactPlanInput, projectFound: bool,
                         company: Option<CompanyRow>, provided: Provided, state: Option<StateRow>,
                         report: ContactPlanReport)
    requires PlanContact(rules, reading, data, projectFound, company, provided, state) == Ok(report)
    ensures provided.Provider? && provided.run.Some? && ValidatedDiscovery(provided.run.value, data.companyId).Valid?
    ensures var first := FirstChoice(reading, ValidatedDiscovery(provided.run.value, data.companyId).value,
                                     data.companyId);
      if report.choice.Nobody? then first == None else first == Some(report.choice.candidate)
  {
  }
}
