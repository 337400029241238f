/**
 A run of the acquisition loop told from outside: what each attempt asked and was answered. The history of a run is
 made of replies alone, and the counters and id lists of the loop are what those replies add up to.
 */
module AcquisitionHistory {
  import opened Common
  import opened LeadAcquisition
  import opened AcquisitionGuarantees

  /** The replies an attempt hears; a question it does not come to has none. */
  datatype Replies = Replies(
    plan: PlanReply, alreadyComplete: bool, company: Option<CompanyReply>, contactPlan: Option<ContactPlanReply>,
    contact: Option<ContactReply>, email: Option<EmailReply>, enriched: Option<bool>, emailAgain: Option<EmailReply>,
    completion: Option<CompletionReply>, draft: Option<DraftReply>)

  // ----- What is asked --------------------------------------------------------------------------------

  /** A plan that selects a candidate and was not suppressed. */
  predicate Selects(plan: PlanReply) {
    plan.Planned? && !plan.outcome.suppressed && plan.outcome.selected.Some?
  }

  predicate NamesExisting(plan: PlanReply) {
    Selects(plan) && plan.outcome.existingCompany.Some?
  }

  /** The company an attempt goes on with: the one a plan names, or the one a selected candidate was applied to. */
  function CompanyOf(h: Replies): Option<int> {
    if NamesExisting(h.plan) then
      if h.alreadyComplete then None else h.plan.outcome.existingCompany
    else if h.company.Some? && h.company.value.Applied? && h.company.value.created != h.company.value.reused then
      Some(h.company.value.companyId)
    else None
  }

  /** The plan of a contact that can be applied. */
  predicate Applicable(reply: Option<ContactPlanReply>) {
    reply.Some? && reply.value.ContactPlanned? && reply.value.plan.candidateId.Some? && reply.value.plan.token.Some?
  }

  predicate Exclusive(c: Contact) {
    c.contactCreated != c.contactReused && c.leadCreated != c.leadReused && c.taskCreated != c.taskReused
  }

  /** The contact an attempt goes on with. */
  function ContactOf(h: Replies): Option<Contact> {
    if h.contact.Some? && h.contact.value.ContactApplied? && Exclusive(h.contact.value.contact)
    then Some(h.contact.value.contact) else None
  }

  function PersonAddress(usable: Option<string> -> Option<string>, h: Replies): Option<string> {
    if ContactOf(h).Some? && Applicable(h.contactPlan) then usable(h.contactPlan.value.plan.email) else None
  }

  /** Whether the company's own address is looked for: nobody was reached, and nothing went wrong on the way. */
  predicate SeeksCompanyAddress(usable: Option<string> -> Option<string>, h: Replies) {
    && CompanyOf(h).Some? && h.contactPlan.Some? && !h.contactPlan.value.ContactPlanFailed?
    && (h.contact.None? || h.contact.value.ContactUnavailable? || ContactOf(h).Some?)
    && PersonAddress(usable, h).None?
  }

  function Read(usable: Option<string> -> Option<string>, reply: Option<EmailReply>): Option<string> {
    if reply.Some? && reply.value.Email? then usable(reply.value.value) else None
  }

  /** The company's address, read a second time only after an enrichment. */
  function CompanyAddress(usable: Option<string> -> Option<string>, h: Replies): Option<string> {
    if Read(usable, h.email).Some? then Read(usable, h.email) else Read(usable, h.emailAgain)
  }

  /** A company completed without a contact. */
  function CompletionOf(h: Replies): Option<Completion> {
    if h.completion.Some? && h.completion.value.CompanyCompleted?
      && h.completion.value.completion.leadCreated != h.completion.value.completion.leadReused
      && h.completion.value.completion.taskCreated != h.completion.value.completion.taskReused
    then Some(h.completion.value.completion) else None
  }

  /** Whom a draft is asked for, and to which address it must go. */
  datatype Addressee = Addressee(companyId: int, contactId: Option<int>, leadId: int, taskId: int, email: string)

  function AddresseeOf(usable: Option<string> -> Option<string>, h: Replies): Option<Addressee> {
    if CompanyOf(h).None? then None
    else if PersonAddress(usable, h).Some? then
      var c := ContactOf(h).value;
      Some(Addressee(CompanyOf(h).value, Some(c.contactId), c.leadId, c.taskId, PersonAddress(usable, h).value))
    else if CompletionOf(h).Some? && CompanyAddress(usable, h).Some? then
      var c := CompletionOf(h).value;
      Some(Addressee(CompanyOf(h).value, None, c.leadId, c.taskId, CompanyAddress(usable, h).value))
    else None
  }

  /** The replies of one attempt, asked one after another with the dependencies it has. */
  ghost predicate Hears(usable: Option<string> -> Option<string>, d: Dependencies, offset: nat, seen: set<string>,
                        h: Replies)
  {
    && h.plan == d.plan(offset, seen)
    && h.alreadyComplete == (NamesExisting(h.plan) && d.alreadyComplete(h.plan.outcome.existingCompany.value))
    && h.company == (if Selects(h.plan) && !NamesExisting(h.plan)
                     then Some(d.apply(h.plan.outcome.runId, h.plan.outcome.selected.value)) else None)
    && h.contactPlan == (if CompanyOf(h).Some? then Some(d.contactPlan(CompanyOf(h).value)) else None)
    && h.contact == (if CompanyOf(h).Some? && Applicable(h.contactPlan)
                     then Some(d.contactApply(CompanyOf(h).value, h.contactPlan.value.plan.candidateId.value,
                                              h.contactPlan.value.plan.token.value))
                     else None)
    && h.email == (if SeeksCompanyAddress(usable, h) then Some(d.email(CompanyOf(h).value)) else None)
    && h.enriched == (if h.email.Some? && h.email.value.Email? && Read(usable, h.email).None? && d.enrich.Some?
                      then Some(d.enrich.value(CompanyOf(h).value)) else None)
    && h.emailAgain == (if h.enriched == Some(true) then Some(d.emailAfterEnrichment(CompanyOf(h).value)) else None)
    && h.completion == (if h.email.Some? && CompanyAddress(usable, h).Some?
                        then Some(d.complete(CompanyOf(h).value, CompanyAddress(usable, h).value)) else None)
    && h.draft == (match AddresseeOf(usable, h)
                   case Some(a) => Some(d.generate(a.companyId, a.contactId, a.leadId, a.taskId))
                   case None => None)
  }

  function Heard(usable: Option<string> -> Option<string>, d: Dependencies, offset: nat, seen: set<string>):
    (h: Replies)
    ensures Hears(usable, d, offset, seen, h)
  {
    var plan := d.plan(offset, seen);
    var complete := NamesExisting(plan) && d.alreadyComplete(plan.outcome.existingCompany.value);
    var company := if Selects(plan) && !NamesExisting(plan)
                   then Some(d.apply(plan.outcome.runId, plan.outcome.selected.value)) else None;
    var h := Replies(plan, complete, company, None, None, None, None, None, None, None);
    if CompanyOf(h).None? then h
    else HeardOf(usable, d, h, CompanyOf(h).value)
  }

  /** The replies from the contact plan of a company on. */
  function HeardOf(usable: Option<string> -> Option<string>, d: Dependencies, start: Replies, companyId: int): Replies {
    var contactPlan := Some(d.contactPlan(companyId));
    var contact :=
      if Applicable(contactPlan)
      then Some(d.contactApply(companyId, contactPlan.value.plan.candidateId.value, contactPlan.value.plan.token.value))
      else None;
    var h := start.(contactPlan := contactPlan, contact := contact);
    if SeeksCompanyAddress(usable, h) then HeardAtCompany(usable, d, h, companyId)
    else match AddresseeOf(usable, h)
      case Some(a) => h.(draft := Some(d.generate(a.companyId, a.contactId, a.leadId, a.taskId)))
      case None => h
  }

  /** The replies from the company's own address on. */
  function HeardAtCompany(usable: Option<string> -> Option<string>, d: Dependencies, start: Replies, companyId: int):
    Replies
  {
    var email := d.email(companyId);
    var enriched := if email.Email? && usable(email.value).None? && d.enrich.Some?
                    then Some(d.enrich.value(companyId)) else None;
    var again := if enriched == Some(true) then Some(d.emailAfterEnrichment(companyId)) else None;
    var h := start.(email := Some(email), enriched := enriched, emailAgain := again);
    if CompanyAddress(usable, h).None? then h
    else
      var completed := h.(completion := Some(d.complete(companyId, CompanyAddress(usable, h).value)));
      match AddresseeOf(usable, completed)
      case Some(a) => completed.(draft := Some(d.generate(a.companyId, a.contactId, a.leadId, a.taskId)))
      case None => completed
  }

  // ----- What the replies say -------------------------------------------------------------------------

  /** The draft is one, for the person and the lead asked for, to the address expected. */
  predicate DraftFits(usable: Option<string> -> Option<string>, h: Replies) {
    && h.draft.Some? && h.draft.value.Drafted? && AddresseeOf(usable, h).Some?
    && h.draft.value.draft.isDraft
    && h.draft.value.draft.contactId == AddresseeOf(usable, h).value.contactId
    && h.draft.value.draft.leadId == AddresseeOf(usable, h).value.leadId
    && usable(Some(h.draft.value.draft.email)) == Some(AddresseeOf(usable, h).value.email)
  }

  predicate NewDraft(usable: Option<string> -> Option<string>, h: Replies) {
    DraftFits(usable, h) && h.draft.value.draft.created && !h.draft.value.draft.reused
  }

  predicate OldDraft(usable: Option<string> -> Option<string>, h: Replies) {
    DraftFits(usable, h) && !h.draft.value.draft.created && h.draft.value.draft.reused
  }

  predicate Drafted(h: Replies) {
    h.draft.Some? && !h.draft.value.DraftFailed?
  }

  /** The replies that make a run raise, and as what. */
  function Trouble(usable: Option<string> -> Option<string>, h: Replies): Option<FailureStage> {
    if h.plan.PlanFailed? then Some(CompanyDiscovery)
    else if h.company == Some(CompanyFailed) then Some(CompanyApplication)
    else if h.company.Some? && h.company.value.Applied? && CompanyOf(h).None? then Some(InconsistentOutcome)
    else if h.contactPlan == Some(ContactPlanFailed) then Some(ContactDiscovery)
    else if h.contact == Some(ContactFailed) then Some(ContactApplication)
    else if h.contact.Some? && h.contact.value.ContactApplied? && ContactOf(h).None? then Some(InconsistentOutcome)
    else if h.email == Some(EmailFailed) || h.enriched == Some(false) || h.emailAgain == Some(EmailFailed) then
      Some(CompanyEnrichment)
    else if h.completion == Some(CompletionFailed) then Some(OutreachCompletion)
    else if h.completion.Some? && CompletionOf(h).None? then Some(InconsistentOutcome)
    else DraftTrouble(usable, h)
  }

  function DraftTrouble(usable: Option<string> -> Option<string>, h: Replies): Option<FailureStage> {
    if h.draft == Some(DraftFailed) then Some(DraftGeneration)
    else if DraftFits(usable, h) && h.draft.value.draft.created == h.draft.value.draft.reused then
      Some(InconsistentOutcome)
    else None
  }

  function NoExits(): Exits {
    Exits(0, 0, 0, 0, 0, 0, 0, 0)
  }

  function NothingMade(): Made {
    Made(0, 0, 0, 0, 0, 0, 0, 0)
  }

  function NothingSpent(): Spent {
    Spent(0, 0, 0, 0, 0, 0)
  }

  /** The exits the plan and the company apply account for. */
  function PlanExits(h: Replies): Exits {
    Exits(One(h.plan.Planned? && h.plan.outcome.suppressed) + One(h.alreadyComplete),
          One(h.plan.Planned? && !h.plan.outcome.suppressed && h.plan.outcome.selected.None?)
            + One(h.company == Some(CompanyUnavailable)),
          0, 0, 0, 0, 0, One(h.alreadyComplete))
  }

  /** A company for which no contact was applied. */
  function ContactExits(h: Replies): Exits {
    NoExits().(noContact := One(CompanyOf(h).Some? && ContactOf(h).None?))
  }

  /** A company whose address was looked for in vain. */
  function AddressExits(usable: Option<string> -> Option<string>, h: Replies): Exits {
    NoExits().(noEmail := One(h.email.Some? && CompanyAddress(usable, h).None?))
  }

  /** A draft call, and whether it failed or brought a new draft or an old one, which is a duplicate too. */
  function DraftExits(usable: Option<string> -> Option<string>, h: Replies): Exits {
    Exits(One(OldDraft(usable, h)), 0, 0, 0, One(h.draft.Some?), One(Drafted(h) && !DraftFits(usable, h)),
          One(NewDraft(usable, h)), One(OldDraft(usable, h)))
  }

  /** The exits an attempt adds to. */
  function ExitsSaid(usable: Option<string> -> Option<string>, h: Replies): Exits {
    var (plan, draft) := (PlanExits(h), DraftExits(usable, h));
    Exits(plan.duplicatesSkipped + draft.duplicatesSkipped, plan.noSelection, ContactExits(h).noContact,
          AddressExits(usable, h).noEmail, draft.draftCalls, draft.draftFailures, draft.draftsCreated,
          plan.draftsReused + draft.draftsReused)
  }

  /** What the company's reply says: an existing company that is named counts as reused. */
  function CompanyMade(h: Replies): Made {
    match h.company
    case Some(Applied(_, created, reused)) =>
      NothingMade().(companiesCreated := One(created), companiesReused := One(reused))
    case _ => NothingMade().(companiesReused := One(NamesExisting(h.plan) && !h.alreadyComplete))
  }

  /** What a contact that was applied says of itself, its lead and its task. */
  function ContactMade(contact: Option<Contact>): Made {
    match contact
    case None => NothingMade()
    case Some(c) => Made(0, 0, One(c.contactCreated), One(c.contactReused), One(c.leadCreated), One(c.leadReused),
                         One(c.taskCreated), One(c.taskReused))
  }

  /** What a completed company says of its lead and its task. */
  function CompletionMade(completion: Option<Completion>): Made {
    match completion
    case None => NothingMade()
    case Some(c) =>
      Made(0, 0, 0, 0, One(c.leadCreated), One(c.leadReused), One(c.taskCreated), One(c.taskReused))
  }

  /** What the replies say was created and what was reused. */
  function MadeSaid(h: Replies): Made {
    var (company, contact, completion) := (CompanyMade(h), ContactMade(ContactOf(h)), CompletionMade(CompletionOf(h)));
    Made(company.companiesCreated, company.companiesReused, contact.contactsCreated, contact.contactsReused,
         contact.leadsCreated + completion.leadsCreated, contact.leadsReused + completion.leadsReused,
         contact.tasksCreated + completion.tasksCreated, contact.tasksReused + completion.tasksReused)
  }

  /** What the plans say they spent. */
  function SpentSaid(h: Replies): Spent {
    PlusSpent(PlanSpent(h.plan), ContactPlanSpent(h.contactPlan))
  }

  function PlanSpent(plan: PlanReply): Spent {
    match plan
    case Planned(o) => Spent(1, o.candidateCount, o.discoveryCalls, o.decisionCalls, 0, 0)
    case ProviderStop(discovery, decision, runs, candidates) => Spent(runs, candidates, discovery, decision, 0, 0)
    case PlanFailed => NothingSpent()
  }

  function ContactPlanSpent(reply: Option<ContactPlanReply>): Spent {
    match reply
    case Some(ContactPlanned(p)) => Spent(0, 0, 0, 0, p.discoveryCalls, p.decisionCalls)
    case Some(ContactPlanUnavailable(discovery, decision)) => Spent(0, 0, 0, 0, discovery, decision)
    case _ => NothingSpent()
  }

  datatype Done = Done(addressee: Addressee, draftId: int)

  /** The completion of an attempt: a new draft for its addressee. */
  function DoneSaid(usable: Option<string> -> Option<string>, h: Replies): seq<Done> {
    if NewDraft(usable, h) then [Done(AddresseeOf(usable, h).value, h.draft.value.draft.draftId)] else []
  }

  function FingerprintSaid(h: Replies): set<string> {
    if h.plan.Planned? && h.plan.outcome.fingerprint.Some? then {h.plan.outcome.fingerprint.value} else {}
  }

  // ----- Adding up ------------------------------------------------------------------------------------

  function PlusExits(a: Exits, b: Exits): Exits {
    Exits(a.duplicatesSkipped + b.duplicatesSkipped, a.noSelection + b.noSelection, a.noContact + b.noContact,
          a.noEmail + b.noEmail, a.draftCalls + b.draftCalls, a.draftFailures + b.draftFailures,
          a.draftsCreated + b.draftsCreated, a.draftsReused + b.draftsReused)
  }

  function PlusMade(a: Made, b: Made): Made {
    Made(a.companiesCreated + b.companiesCreated, a.companiesReused + b.companiesReused,
         a.contactsCreated + b.contactsCreated, a.contactsReused + b.contactsReused,
         a.leadsCreated + b.leadsCreated, a.leadsReused + b.leadsReused,
         a.tasksCreated + b.tasksCreated, a.tasksReused + b.tasksReused)
  }

  function PlusSpent(a: Spent, b: Spent): Spent {
    Spent(a.discoveryRuns + b.discoveryRuns, a.candidates + b.candidates,
          a.companyDiscoveryCalls + b.companyDiscoveryCalls, a.companyDecisionCalls + b.companyDecisionCalls,
          a.contactDiscoveryCalls + b.contactDiscoveryCalls, a.contactDecisionCalls + b.contactDecisionCalls)
  }

  function PersonsOf(dones: seq<Done>): seq<int> {
    if |dones| == 0 then []
    else
      var last := dones[|dones| - 1].addressee.contactId;
      PersonsOf(dones[..|dones| - 1]) + if last.Some? then [last.value] else []
  }

  /** The completions of a run as the loop records them. */
  function CompletedOf(dones: seq<Done>): Completed {
    Completed(|dones|, |PersonsOf(dones)|, CompanyScopedOf(dones),
              seq(|dones|, i requires 0 <= i < |dones| => dones[i].addressee.companyId), PersonsOf(dones),
              seq(|dones|, i requires 0 <= i < |dones| => dones[i].addressee.leadId),
              seq(|dones|, i requires 0 <= i < |dones| => dones[i].addressee.taskId),
              seq(|dones|, i requires 0 <= i < |dones| => dones[i].draftId))
  }

  function CompanyScopedOf(dones: seq<Done>): nat {
    if |dones| == 0 then 0
    else CompanyScopedOf(dones[..|dones| - 1]) + One(dones[|dones| - 1].addressee.contactId.None?)
  }

  function Joined(a: Completed, b: Completed): Completed {
    Completed(a.count + b.count, a.personScoped + b.personScoped, a.companyScoped + b.companyScoped,
              a.companyIds + b.companyIds, a.contactIds + b.contactIds, a.leadIds + b.leadIds, a.taskIds + b.taskIds,
              a.draftIds + b.draftIds)
  }

  lemma OneMoreDone(dones: seq<Done>, more: seq<Done>)
    requires |more| <= 1
    ensures CompletedOf(dones + more) == Joined(CompletedOf(dones), CompletedOf(more))
  {
    if |more| == 1 {
      assert (dones + more)[..|dones|] == dones;
      assert PersonsOf(more[..0]) == [] && CompanyScopedOf(more[..0]) == 0;
    } else {
      assert dones + more == dones;
    }
  }

  function Added(x: Tally, exits: Exits, made: Made, spent: Spent, dones: seq<Done>): Tally {
    x.(exits := PlusExits(x.exits, exits), made := PlusMade(x.made, made), spent := PlusSpent(x.spent, spent),
       completed := Joined(x.completed, CompletedOf(dones)))
  }

  // ----- One attempt is what it was told --------------------------------------------------------------

  // From a stage on, an attempt raises what its replies say, or adds what the replies from there on say.

  function EndsAs(usable: Option<string> -> Option<string>, h: Replies, tally: Tally): Turn {
    match Trouble(usable, h) case Some(stage) => Fail(stage) case None => Go(tally)
  }

  function AtDraft(usable: Option<string> -> Option<string>, h: Replies, x: Tally): Tally {
    Added(x, DraftExits(usable, h), NothingMade(), NothingSpent(), DoneSaid(usable, h))
  }

  function AtAddress(usable: Option<string> -> Option<string>, h: Replies, x: Tally): Tally {
    Added(x, AddressExits(usable, h), CompletionMade(CompletionOf(h)), NothingSpent(), [])
  }

  function AtContact(h: Replies, x: Tally): Tally {
    Added(x, ContactExits(h), ContactMade(ContactOf(h)), NothingSpent(), [])
  }

  function AtCompany(h: Replies, x: Tally): Tally {
    Added(x, NoExits(), CompanyMade(h), ContactPlanSpent(h.contactPlan), [])
  }

  lemma AddresseeMeansNoTrouble(usable: Option<string> -> Option<string>, d: Dependencies, offset: nat,
                                seen: set<string>, h: Replies)
    requires Hears(usable, d, offset, seen, h) && AddresseeOf(usable, h).Some?
    ensures Trouble(usable, h) == DraftTrouble(usable, h)
  {
  }

  lemma NewDraftIsAdded(x: Completed, a: Addressee, draftId: int)
    ensures AddCompletion(x, a.companyId, a.contactId, a.leadId, a.taskId, draftId) ==
            Joined(x, CompletedOf([Done(a, draftId)]))
    ensures Joined(x, CompletedOf([])) == x
  {
    var dones := [Done(a, draftId)];
    assert PersonsOf(dones[..0]) == [] && CompanyScopedOf(dones[..0]) == 0;
  }

  lemma DraftTells(usable: Option<string> -> Option<string>, d: Dependencies, h: Replies, x: Tally, a: Addressee)
    requires AddresseeOf(usable, h) == Some(a)
    requires h.draft == Some(d.generate(a.companyId, a.contactId, a.leadId, a.taskId))
    ensures AttemptFrom(usable, d, x, Drafting(a.companyId, a.contactId, a.leadId, a.taskId, a.email)) ==
      match DraftTrouble(usable, h) case Some(stage) => Fail(stage) case None => Go(AtDraft(usable, h, x))
  {
    assert AttemptFrom(usable, d, x, Drafting(a.companyId, a.contactId, a.leadId, a.taskId, a.email))
      == CompleteDraft(usable, d, x, a.companyId, a.contactId, a.leadId, a.taskId, a.email);
    NewDraftIsAdded(x.completed, a, if h.draft.value.Drafted? then h.draft.value.draft.draftId else 0);
  }

  lemma NothingAdds(x: Tally)
    ensures Added(x, NoExits(), NothingMade(), NothingSpent(), []) == x
  {
    NewDraftIsAdded(x.completed, Addressee(0, None, 0, 0, ""), 0);
  }

  lemma NoDraftAdds(usable: Option<string> -> Option<string>, h: Replies, x: Tally)
    requires h.draft.None?
    ensures AtDraft(usable, h, x) == x
  {
    NothingAdds(x);
  }

  lemma OneExitAdds(x: Tally, exits: Exits)
    ensures Added(x, exits, NothingMade(), NothingSpent(), []) == x.(exits := PlusExits(x.exits, exits))
  {
    NewDraftIsAdded(x.completed, Addressee(0, None, 0, 0, ""), 0);
  }

  lemma MadeAdds(x: Tally, made: Made)
    ensures Added(x, NoExits(), made, NothingSpent(), []) == x.(made := PlusMade(x.made, made))
  {
    NewDraftIsAdded(x.completed, Addressee(0, None, 0, 0, ""), 0);
  }

  predicate AddressTrouble(h: Replies) {
    h.email == Some(EmailFailed) || h.enriched == Some(false) || h.emailAgain == Some(EmailFailed)
  }

  lemma AddressHeard(usable: Option<string> -> Option<string>, d: Dependencies, offset: nat, seen: set<string>,
                     h: Replies)
    requires Hears(usable, d, offset, seen, h) && SeeksCompanyAddress(usable, h)
    ensures CompanyEmail(usable, d, CompanyOf(h).value) ==
      if AddressTrouble(h) then Err(CompanyEnrichment) else Ok(CompanyAddress(usable, h))
  {
    var companyId := CompanyOf(h).value;
    assert h.email == Some(d.email(companyId));
    if h.enriched == Some(true) {
      assert h.emailAgain == Some(d.emailAfterEnrichment(companyId));
    }
  }

  /** What can still go wrong once the company's address is looked for. */
  lemma SeekingMeansNoTrouble(usable: Option<string> -> Option<string>, d: Dependencies, offset: nat, seen: set<string>,
                              h: Replies)
    requires Hears(usable, d, offset, seen, h) && SeeksCompanyAddress(usable, h)
    ensures Trouble(usable, h) == TroubleAtCompany(usable, h)
  {
  }

  function TroubleAtCompany(usable: Option<string> -> Option<string>, h: Replies): Option<FailureStage> {
    if AddressTrouble(h) then Some(CompanyEnrichment)
    else if h.completion == Some(CompletionFailed) then Some(OutreachCompletion)
    else if h.completion.Some? && CompletionOf(h).None? then Some(InconsistentOutcome)
    else DraftTrouble(usable, h)
  }

  /** What is heard when the company's address is looked for. */
  predicate AddressPath(usable: Option<string> -> Option<string>, d: Dependencies, h: Replies, companyId: int) {
    && (h.completion == if !AddressTrouble(h) && CompanyAddress(usable, h).Some?
                        then Some(d.complete(companyId, CompanyAddress(usable, h).value)) else None)
    && (AddresseeOf(usable, h) == if h.completion.Some? && CompletionOf(h).Some?
          then Some(Addressee(companyId, None, CompletionOf(h).value.leadId, CompletionOf(h).value.taskId,
                              CompanyAddress(usable, h).value)) else None)
    && (h.draft == match AddresseeOf(usable, h)
                   case Some(a) => Some(d.generate(a.companyId, a.contactId, a.leadId, a.taskId)) case None => None)
  }

  lemma AddressPathHeard(usable: Option<string> -> Option<string>, d: Dependencies, offset: nat, seen: set<string>,
                         h: Replies)
    requires Hears(usable, d, offset, seen, h) && SeeksCompanyAddress(usable, h)
    ensures AddressPath(usable, d, h, CompanyOf(h).value) && h.email.Some?
  {
  }

  lemma AddressTells(usable: Option<string> -> Option<string>, d: Dependencies, h: Replies, x: Tally, companyId: int)
    requires AddressPath(usable, d, h, companyId) && h.email.Some?
    requires CompanyEmail(usable, d, companyId) ==
      if AddressTrouble(h) then Err(CompanyEnrichment) else Ok(CompanyAddress(usable, h))
    ensures AttemptFrom(usable, d, x, UsingAddress(companyId)) ==
      match TroubleAtCompany(usable, h)
      case Some(stage) => Fail(stage)
      case None => Go(AtDraft(usable, h, AtAddress(usable, h, x)))
  {
    var move := UseAddress(usable, d, x, companyId);
    assert Advance(usable, d, x, UsingAddress(companyId)) == move;
    if AddresseeOf(usable, h).Some? {
      var c := CompletionOf(h).value;
      MadeAdds(x, CompletionMade(Some(c)));
      assert move == Moves(AtAddress(usable, h, x),
                           Drafting(companyId, None, c.leadId, c.taskId, CompanyAddress(usable, h).value));
      DraftTells(usable, d, h, move.tally, AddresseeOf(usable, h).value);
    } else {
      NoDraftAdds(usable, h, AtAddress(usable, h, x));
      OneExitAdds(x, NoExits().(noEmail := 1));
    }
  }

  function PlanOf(reply: ContactPlanReply): ContactPlan {
    if reply.ContactPlanned? then reply.plan else ContactPlan(None, None, None, 0, 0)
  }

  lemma SeekingTells(usable: Option<string> -> Option<string>, d: Dependencies, offset: nat, seen: set<string>,
                     h: Replies, x: Tally)
    requires Hears(usable, d, offset, seen, h) && SeeksCompanyAddress(usable, h)
    ensures AttemptFrom(usable, d, x, UsingAddress(CompanyOf(h).value)) ==
      EndsAs(usable, h, AtDraft(usable, h, AtAddress(usable, h, x)))
  {
    SeekingMeansNoTrouble(usable, d, offset, seen, h);
    AddressHeard(usable, d, offset, seen, h);
    AddressPathHeard(usable, d, offset, seen, h);
    AddressTells(usable, d, h, x, CompanyOf(h).value);
  }

  lemma PersonHeard(usable: Option<string> -> Option<string>, d: Dependencies, offset: nat, seen: set<string>,
                    h: Replies)
    requires Hears(usable, d, offset, seen, h) && PersonAddress(usable, h).Some?
    ensures CompanyOf(h).Some? && h.email.None? && h.completion.None?
    ensures AddresseeOf(usable, h) ==
      Some(Addressee(CompanyOf(h).value, Some(ContactOf(h).value.contactId), ContactOf(h).value.leadId,
                     ContactOf(h).value.taskId, PersonAddress(usable, h).value))
  {
  }

  lemma PersonTells(usable: Option<string> -> Option<string>, d: Dependencies, offset: nat, seen: set<string>,
                    h: Replies, x: Tally)
    requires Hears(usable, d, offset, seen, h) && PersonAddress(usable, h).Some?
    ensures CompanyOf(h).Some? && ContactOf(h).Some?
    ensures AttemptFrom(usable, d, x, Drafting(CompanyOf(h).value, Some(ContactOf(h).value.contactId),
                                               ContactOf(h).value.leadId, ContactOf(h).value.taskId,
                                               PersonAddress(usable, h).value))
      == EndsAs(usable, h, AtDraft(usable, h, AtAddress(usable, h, x)))
  {
    PersonHeard(usable, d, offset, seen, h);
    AddresseeMeansNoTrouble(usable, d, offset, seen, h);
    NothingAdds(x);
    DraftTells(usable, d, h, x, AddresseeOf(usable, h).value);
  }

  /** The move of a contact stage, by the answer of the contact apply if it was asked. */
  lemma ContactMoves(usable: Option<string> -> Option<string>, d: Dependencies, x: Tally, companyId: int,
                     plan: ContactPlan, contact: Option<ContactReply>)
    requires contact == if plan.candidateId.Some? && plan.token.Some?
                        then Some(d.contactApply(companyId, plan.candidateId.value, plan.token.value)) else None
    ensures Advance(usable, d, x, UsingContact(companyId, plan)) ==
      match contact
      case None => NoContact(x, companyId)
      case Some(ContactUnavailable) => NoContact(x, companyId)
      case Some(ContactFailed) => Ends(Fail(ContactApplication))
      case Some(ContactApplied(c)) =>
        if !Exclusive(c) then Ends(Fail(InconsistentOutcome))
        else
          var y := x.(made := CountContact(x.made, c));
          if usable(plan.email).Some?
          then Moves(y, Drafting(companyId, Some(c.contactId), c.leadId, c.taskId, usable(plan.email).value))
          else Moves(y, UsingAddress(companyId))
  {
  }

  lemma ContactTells(usable: Option<string> -> Option<string>, d: Dependencies, offset: nat, seen: set<string>,
                     h: Replies, x: Tally, companyId: int)
    requires Hears(usable, d, offset, seen, h) && CompanyOf(h) == Some(companyId)
    requires h.contactPlan.Some? && !h.contactPlan.value.ContactPlanFailed?
    ensures AttemptFrom(usable, d, x, UsingContact(companyId, PlanOf(h.contactPlan.value))) ==
      EndsAs(usable, h, AtDraft(usable, h, AtAddress(usable, h, AtContact(h, x))))
  {
    ContactMoves(usable, d, x, companyId, PlanOf(h.contactPlan.value), h.contact);
    if h.contact.Some? && h.contact != Some(ContactUnavailable) && ContactOf(h).None? {
      NoContactMeansTrouble(usable, d, offset, seen, h);
    } else if ContactOf(h).None? {
      NobodyMoves(h, x);
      NobodySeeks(usable, h);
      SeekingTells(usable, d, offset, seen, h, AtContact(h, x));
    } else {
      ReachedTells(usable, d, offset, seen, h, x);
    }
  }

  lemma NobodyMoves(h: Replies, x: Tally)
    requires CompanyOf(h).Some? && ContactOf(h).None?
    ensures AtContact(h, x) == x.(exits := x.exits.(noContact := x.exits.noContact + 1))
  {
    OneExitAdds(x, NoExits().(noContact := 1));
  }

  lemma NobodySeeks(usable: Option<string> -> Option<string>, h: Replies)
    requires CompanyOf(h).Some? && h.contactPlan.Some? && !h.contactPlan.value.ContactPlanFailed?
    requires ContactOf(h).None? && (h.contact.None? || h.contact == Some(ContactUnavailable))
    ensures SeeksCompanyAddress(usable, h)
  {
  }

  lemma ReachedTells(usable: Option<string> -> Option<string>, d: Dependencies, offset: nat, seen: set<string>,
                     h: Replies, x: Tally)
    requires Hears(usable, d, offset, seen, h) && ContactOf(h).Some?
    ensures CompanyOf(h).Some? && h.contactPlan.Some? && h.contactPlan.value.ContactPlanned?
    ensures x.(made := CountContact(x.made, ContactOf(h).value)) == AtContact(h, x)
    ensures var email := usable(h.contactPlan.value.plan.email);
      AttemptFrom(usable, d, AtContact(h, x),
                  if email.Some? then Drafting(CompanyOf(h).value, Some(ContactOf(h).value.contactId),
                                               ContactOf(h).value.leadId, ContactOf(h).value.taskId, email.value)
                  else UsingAddress(CompanyOf(h).value))
      == EndsAs(usable, h, AtDraft(usable, h, AtAddress(usable, h, AtContact(h, x))))
  {
    MadeAdds(x, ContactMade(ContactOf(h)));
    if PersonAddress(usable, h).Some? {
      PersonTells(usable, d, offset, seen, h, AtContact(h, x));
    } else {
      SeekingTells(usable, d, offset, seen, h, AtContact(h, x));
    }
  }

  lemma NoContactMeansTrouble(usable: Option<string> -> Option<string>, d: Dependencies, offset: nat, seen: set<string>,
                              h: Replies)
    requires Hears(usable, d, offset, seen, h) && CompanyOf(h).Some? && h.contactPlan != Some(ContactPlanFailed)
    requires h.contact.Some? && h.contact != Some(ContactUnavailable) && ContactOf(h).None?
    ensures Trouble(usable, h) ==
      Some(if h.contact == Some(ContactFailed) then ContactApplication else InconsistentOutcome)
  {
  }

  /** What an attempt adds from the company it goes on with, if any. */
  function AtRest(usable: Option<string> -> Option<string>, h: Replies, x: Tally): Tally {
    AtDraft(usable, h, AtAddress(usable, h, AtContact(h, AtCompany(h, x))))
  }

  lemma CompanyTells(usable: Option<string> -> Option<string>, d: Dependencies, offset: nat, seen: set<string>,
                     h: Replies, x: Tally, companyId: int, created: bool, reused: bool)
    requires Hears(usable, d, offset, seen, h) && !h.alreadyComplete
    requires if NamesExisting(h.plan)
             then companyId == h.plan.outcome.existingCompany.value && !created && reused
             else h.company == Some(Applied(companyId, created, reused))
    ensures AttemptFrom(usable, d, x, UsingCompany(companyId, created, reused)) ==
            EndsAs(usable, h, AtRest(usable, h, x))
  {
    var move := UseCompany(d, x, companyId, created, reused);
    assert Advance(usable, d, x, UsingCompany(companyId, created, reused)) == move;
    if created != reused && h.contactPlan != Some(ContactPlanFailed) {
      CompanyMoves(usable, d, offset, seen, h, x, companyId, created, reused);
      ContactTells(usable, d, offset, seen, h, AtCompany(h, x), companyId);
    } else {
      CompanyTroubles(usable, d, offset, seen, h, created, reused);
    }
  }

  lemma CompanyMoves(usable: Option<string> -> Option<string>, d: Dependencies, offset: nat, seen: set<string>,
                     h: Replies, x: Tally, companyId: int, created: bool, reused: bool)
    requires Hears(usable, d, offset, seen, h) && !h.alreadyComplete
    requires if NamesExisting(h.plan)
             then companyId == h.plan.outcome.existingCompany.value && !created && reused
             else h.company == Some(Applied(companyId, created, reused))
    requires created != reused && h.contactPlan != Some(ContactPlanFailed)
    ensures CompanyOf(h) == Some(companyId) && h.contactPlan.Some?
    ensures UseCompany(d, x, companyId, created, reused) ==
            Moves(AtCompany(h, x), UsingContact(companyId, PlanOf(h.contactPlan.value)))
  {
    NothingAdds(x);
  }

  lemma CompanyTroubles(usable: Option<string> -> Option<string>, d: Dependencies, offset: nat, seen: set<string>,
                        h: Replies, created: bool, reused: bool)
    requires Hears(usable, d, offset, seen, h) && !h.alreadyComplete && Selects(h.plan)
    requires if NamesExisting(h.plan) then !created && reused
             else h.company.Some? && h.company.value.Applied? && h.company.value.created == created
                  && h.company.value.reused == reused
    requires created == reused || h.contactPlan == Some(ContactPlanFailed)
    ensures Trouble(usable, h) == Some(if created == reused then InconsistentOutcome else ContactDiscovery)
  {
  }

  function AtPlan(h: Replies, x: Tally): Tally {
    Added(x, PlanExits(h), NothingMade(), NothingSpent(), [])
  }

  lemma NoCompanyAddsNothing(usable: Option<string> -> Option<string>, d: Dependencies, offset: nat, seen: set<string>,
                             h: Replies, x: Tally)
    requires Hears(usable, d, offset, seen, h) && CompanyOf(h).None? && !(h.company.Some? && h.company.value.Applied?)
    ensures AtRest(usable, h, x) == x
    ensures Trouble(usable, h) == if h.plan.PlanFailed? then Some(CompanyDiscovery)
                                  else if h.company == Some(CompanyFailed) then Some(CompanyApplication) else None
  {
    NothingAdds(x);
  }

  lemma FollowTells(usable: Option<string> -> Option<string>, d: Dependencies, offset: nat, seen: set<string>,
                    h: Replies, x: Tally, o: PlanOutcome)
    requires Hears(usable, d, offset, seen, h) && h.plan == Planned(o)
    ensures AttemptFrom(usable, d, x, Following(o)) == EndsAs(usable, h, AtRest(usable, h, AtPlan(h, x)))
  {
    assert Advance(usable, d, x, Following(o)) == FollowPlan(d, x, o);
    FollowMoves(usable, d, offset, seen, h, x, o);
    if NamesExisting(h.plan) && !h.alreadyComplete {
      CompanyTells(usable, d, offset, seen, h, AtPlan(h, x), o.existingCompany.value, false, true);
    } else if h.company.Some? && h.company.value.Applied? {
      var reply := h.company.value;
      CompanyTells(usable, d, offset, seen, h, AtPlan(h, x), reply.companyId, reply.created, reply.reused);
    } else {
      NoCompanyAddsNothing(usable, d, offset, seen, h, AtPlan(h, x));
    }
  }

  /** The move of a plan that was answered, by what is heard of its company. */
  lemma FollowMoves(usable: Option<string> -> Option<string>, d: Dependencies, offset: nat, seen: set<string>,
                    h: Replies, x: Tally, o: PlanOutcome)
    requires Hears(usable, d, offset, seen, h) && h.plan == Planned(o)
    ensures FollowPlan(d, x, o) ==
      if NamesExisting(h.plan) && !h.alreadyComplete then
        Moves(AtPlan(h, x), UsingCompany(o.existingCompany.value, false, true))
      else if h.company.Some? && h.company.value.Applied? then
        Moves(AtPlan(h, x), UsingCompany(h.company.value.companyId, h.company.value.created, h.company.value.reused))
      else Ends(if h.company == Some(CompanyFailed) then Fail(CompanyApplication) else Go(AtPlan(h, x)))
  {
    OneExitAdds(x, PlanExits(h));
  }

  function Started(x: Tally, plans: nat, fingerprints: set<string>, spent: Spent): Tally {
    x.(attempts := x.attempts + 1, cursor := x.cursor + plans, fingerprints := x.fingerprints + fingerprints,
       spent := PlusSpent(x.spent, spent))
  }

  function AtStart(h: Replies, x: Tally): Tally {
    Started(x, One(h.plan.Planned?), FingerprintSaid(h), PlanSpent(h.plan))
  }

  /** What a whole attempt adds. */
  function AtEnd(usable: Option<string> -> Option<string>, h: Replies, x: Tally): Tally {
    Added(Started(x, One(h.plan.Planned?), FingerprintSaid(h), NothingSpent()), ExitsSaid(usable, h), MadeSaid(h),
          SpentSaid(h), DoneSaid(usable, h))
  }

  lemma AddedTwice(x: Tally, e: Exits, m: Made, s: Spent, e2: Exits, m2: Made, s2: Spent, dones: seq<Done>)
    ensures Added(Added(x, e, m, s, []), e2, m2, s2, dones) ==
            Added(x, PlusExits(e, e2), PlusMade(m, m2), PlusSpent(s, s2), dones)
  {
    NewDraftIsAdded(x.completed, Addressee(0, None, 0, 0, ""), 0);
  }

  lemma ExitsInParts(plan: Exits, noContact: nat, noEmail: nat, draft: Exits)
    requires plan == Exits(plan.duplicatesSkipped, plan.noSelection, 0, 0, 0, 0, 0, plan.draftsReused)
    requires draft.noSelection == draft.noContact == draft.noEmail == 0
    ensures PlusExits(plan, PlusExits(NoExits().(noContact := noContact),
                                      PlusExits(NoExits().(noEmail := noEmail), draft))) ==
      Exits(plan.duplicatesSkipped + draft.duplicatesSkipped, plan.noSelection, noContact, noEmail, draft.draftCalls,
            draft.draftFailures, draft.draftsCreated, plan.draftsReused + draft.draftsReused)
  {
  }

  lemma MadeInParts(company: Made, contact: Made, completion: Made)
    requires company == NothingMade().(companiesCreated := company.companiesCreated,
                                       companiesReused := company.companiesReused)
    requires contact.companiesCreated == contact.companiesReused == 0
    requires completion.companiesCreated == completion.companiesReused == 0
    requires completion.contactsCreated == completion.contactsReused == 0
    ensures PlusMade(company, PlusMade(contact, completion)) ==
      Made(company.companiesCreated, company.companiesReused, contact.contactsCreated, contact.contactsReused,
           contact.leadsCreated + completion.leadsCreated, contact.leadsReused + completion.leadsReused,
           contact.tasksCreated + completion.tasksCreated, contact.tasksReused + completion.tasksReused)
  {
  }

  lemma PlanExitsShape(h: Replies)
    ensures var plan := PlanExits(h);
      plan == Exits(plan.duplicatesSkipped, plan.noSelection, 0, 0, 0, 0, 0, plan.draftsReused)
  {
  }

  lemma DraftExitsShape(usable: Option<string> -> Option<string>, h: Replies)
    ensures var draft := DraftExits(usable, h); draft.noSelection == draft.noContact == draft.noEmail == 0
  {
  }

  /** The parts of an attempt in any values: four kinds of exits and three of rows. */
  lemma PartsTogether(y: Tally, plan: Exits, noContact: nat, noEmail: nat, draft: Exits, company: Made, contact: Made,
                      completion: Made, spent: Spent, dones: seq<Done>)
    requires plan == Exits(plan.duplicatesSkipped, plan.noSelection, 0, 0, 0, 0, 0, plan.draftsReused)
    requires draft.noSelection == draft.noContact == draft.noEmail == 0
    requires company == NothingMade().(companiesCreated := company.companiesCreated,
                                       companiesReused := company.companiesReused)
    requires contact.companiesCreated == contact.companiesReused == 0
    requires completion.companiesCreated == completion.companiesReused == 0
    requires completion.contactsCreated == completion.contactsReused == 0
    ensures Added(Added(Added(Added(Added(y, plan, NothingMade(), NothingSpent(), []), NoExits(), company, spent, []),
                              NoExits().(noContact := noContact), contact, NothingSpent(), []),
                        NoExits().(noEmail := noEmail), completion, NothingSpent(), []),
                  draft, NothingMade(), NothingSpent(), dones)
      == Added(y, Exits(plan.duplicatesSkipped + draft.duplicatesSkipped, plan.noSelection, noContact, noEmail,
                        draft.draftCalls, draft.draftFailures, draft.draftsCreated,
                        plan.draftsReused + draft.draftsReused),
               Made(company.companiesCreated, company.companiesReused, contact.contactsCreated, contact.contactsReused,
                    contact.leadsCreated + completion.leadsCreated, contact.leadsReused + completion.leadsReused,
                    contact.tasksCreated + completion.tasksCreated, contact.tasksReused + completion.tasksReused),
               spent, dones)
  {
    ExitsInParts(plan, noContact, noEmail, draft);
    MadeInParts(company, contact, completion);
    PartsOf(y, plan, NoExits().(noContact := noContact), NoExits().(noEmail := noEmail), draft, company, contact,
            completion, spent, dones);
  }

  lemma RestInParts(usable: Option<string> -> Option<string>, h: Replies, y: Tally)
    ensures AtRest(usable, h, AtPlan(h, y)) ==
      Added(y, ExitsSaid(usable, h), MadeSaid(h), ContactPlanSpent(h.contactPlan), DoneSaid(usable, h))
  {
    PlanExitsShape(h);
    DraftExitsShape(usable, h);
    PartsTogether(y, PlanExits(h), ContactExits(h).noContact, AddressExits(usable, h).noEmail, DraftExits(usable, h),
                  CompanyMade(h), ContactMade(ContactOf(h)), CompletionMade(CompletionOf(h)),
                  ContactPlanSpent(h.contactPlan), DoneSaid(usable, h));
  }

  lemma PartsAddUp(usable: Option<string> -> Option<string>, h: Replies, x: Tally)
    ensures AtRest(usable, h, AtPlan(h, AtStart(h, x))) == AtEnd(usable, h, x)
  {
    RestInParts(usable, h, AtStart(h, x));
    StartAndRest(x, One(h.plan.Planned?), FingerprintSaid(h), PlanSpent(h.plan), ExitsSaid(usable, h), MadeSaid(h),
                 ContactPlanSpent(h.contactPlan), DoneSaid(usable, h));
  }

  lemma StartAndRest(x: Tally, plans: nat, fingerprints: set<string>, planSpent: Spent, exits: Exits, made: Made,
                     spent: Spent, dones: seq<Done>)
    ensures Added(Started(x, plans, fingerprints, planSpent), exits, made, spent, dones) ==
            Added(Started(x, plans, fingerprints, NothingSpent()), exits, made, PlusSpent(planSpent, spent), dones)
  {
  }

  lemma PartsOf(y: Tally, e1: Exits, e3: Exits, e4: Exits, e5: Exits, m2: Made, m3: Made, m4: Made, s2: Spent,
                dones: seq<Done>)
    ensures Added(Added(Added(Added(Added(y, e1, NothingMade(), NothingSpent(), []), NoExits(), m2, s2, []),
                              e3, m3, NothingSpent(), []), e4, m4, NothingSpent(), []),
                  e5, NothingMade(), NothingSpent(), dones)
      == Added(y, PlusExits(e1, PlusExits(e3, PlusExits(e4, e5))), PlusMade(m2, PlusMade(m3, m4)), s2, dones)
  {
    AddedTwice(y, e1, NothingMade(), NothingSpent(), NoExits(), m2, s2, []);
    AddedTwice(y, PlusExits(e1, NoExits()), PlusMade(NothingMade(), m2), PlusSpent(NothingSpent(), s2), e3, m3,
               NothingSpent(), []);
    AddedTwice(y, PlusExits(e1, e3), PlusMade(m2, m3), s2, e4, m4, NothingSpent(), []);
    AddedTwice(y, PlusExits(PlusExits(e1, e3), e4), PlusMade(PlusMade(m2, m3), m4), s2, e5, NothingMade(),
               NothingSpent(), dones);
  }

  lemma AttemptUnfolds(usable: Option<string> -> Option<string>, d: Dependencies, x: Tally, h: Replies)
    requires h.plan == d.plan(x.cursor, x.fingerprints)
    ensures AttemptFrom(usable, d, x, Planning) ==
      match h.plan
      case PlanFailed => Fail(CompanyDiscovery)
      case ProviderStop(_, _, _, _) => Halt(AtStart(h, x))
      case Planned(o) => AttemptFrom(usable, d, AtStart(h, x), Following(o))
  {
    assert Advance(usable, d, x, Planning) == Plan(d, x);
    PlanMoves(d, x, h);
  }

  lemma PlanMoves(d: Dependencies, x: Tally, h: Replies)
    requires h.plan == d.plan(x.cursor, x.fingerprints)
    ensures Plan(d, x) ==
      match h.plan
      case PlanFailed => Ends(Fail(CompanyDiscovery))
      case ProviderStop(_, _, _, _) => Ends(Halt(AtStart(h, x)))
      case Planned(o) => Moves(AtStart(h, x), Following(o))
  {
    assert x.fingerprints + {} == x.fingerprints;
  }

  function OnlyPlan(plan: PlanReply): Replies {
    Replies(plan, false, None, None, None, None, None, None, None, None)
  }

  lemma UnplannedHeard(usable: Option<string> -> Option<string>, d: Dependencies, offset: nat, seen: set<string>,
                       h: Replies)
    requires Hears(usable, d, offset, seen, h) && !h.plan.Planned?
    ensures h == OnlyPlan(h.plan)
  {
  }

  lemma OnlyPlanSays(usable: Option<string> -> Option<string>, plan: PlanReply)
    requires !plan.Planned?
    ensures var h := OnlyPlan(plan);
      && CompanyOf(h).None? && AddresseeOf(usable, h).None? && !DraftFits(usable, h)
      && ExitsSaid(usable, h) == NoExits() && MadeSaid(h) == NothingMade() && DoneSaid(usable, h) == []
      && ContactPlanSpent(h.contactPlan) == NothingSpent()
  {
  }

  lemma UnplannedTells(usable: Option<string> -> Option<string>, plan: PlanReply, x: Tally)
    requires !plan.Planned?
    ensures Trouble(usable, OnlyPlan(plan)) == if plan.PlanFailed? then Some(CompanyDiscovery) else None
    ensures AtEnd(usable, OnlyPlan(plan), x) == AtStart(OnlyPlan(plan), x)
  {
    var h := OnlyPlan(plan);
    OnlyPlanSays(usable, plan);
    StartAndRest(x, 0, FingerprintSaid(h), PlanSpent(plan), NoExits(), NothingMade(), NothingSpent(), []);
    NothingAdds(AtStart(h, x));
  }

  lemma PlanHeard(usable: Option<string> -> Option<string>, d: Dependencies, offset: nat, seen: set<string>, h: Replies)
    requires Hears(usable, d, offset, seen, h)
    ensures h.plan == d.plan(offset, seen)
  {
  }

  /** How an attempt ends, from its plan's answer, what goes wrong behind it, and what it adds. */
  function EndOf(plan: PlanReply, trouble: Option<FailureStage>, tally: Tally): Turn {
    match trouble
    case Some(stage) => Fail(stage)
    case None => if plan.ProviderStop? then Halt(tally) else Go(tally)
  }

  lemma FollowedTells(usable: Option<string> -> Option<string>, d: Dependencies, offset: nat, seen: set<string>,
                      x: Tally, h: Replies)
    requires Hears(usable, d, offset, seen, h) && h.plan.Planned?
    ensures AttemptFrom(usable, d, AtStart(h, x), Following(h.plan.outcome)) == EndsAs(usable, h, AtEnd(usable, h, x))
  {
    FollowTells(usable, d, offset, seen, h, AtStart(h, x), h.plan.outcome);
    PartsAddUp(usable, h, x);
  }

  lemma EndOfPlanned(turn: Turn, plan: PlanReply, trouble: Option<FailureStage>, end: Tally)
    requires plan.Planned? && turn == match trouble case Some(stage) => Fail(stage) case None => Go(end)
    ensures turn == EndOf(plan, trouble, end)
  {
  }

  lemma PlannedTells(usable: Option<string> -> Option<string>, d: Dependencies, x: Tally, h: Replies)
    requires Hears(usable, d, x.cursor, x.fingerprints, h) && h.plan.Planned?
    ensures AttemptFrom(usable, d, x, Planning) == EndOf(h.plan, Trouble(usable, h), AtEnd(usable, h, x))
  {
    PlanHeard(usable, d, x.cursor, x.fingerprints, h);
    FollowedTells(usable, d, x.cursor, x.fingerprints, x, h);
    EndOfPlanned(AttemptFrom(usable, d, AtStart(h, x), Following(h.plan.outcome)), h.plan, Trouble(usable, h),
                 AtEnd(usable, h, x));
    AttemptUnfolds(usable, d, x, h);
  }

  lemma StoppedTells(usable: Option<string> -> Option<string>, d: Dependencies, x: Tally, h: Replies)
    requires Hears(usable, d, x.cursor, x.fingerprints, h) && !h.plan.Planned?
    ensures AttemptFrom(usable, d, x, Planning) == EndOf(h.plan, Trouble(usable, h), AtEnd(usable, h, x))
  {
    UnplannedHeard(usable, d, x.cursor, x.fingerprints, h);
    PlanHeard(usable, d, x.cursor, x.fingerprints, h);
    OnlyPlanTells(usable, d, x, h.plan);
  }

  lemma OnlyPlanTells(usable: Option<string> -> Option<string>, d: Dependencies, x: Tally, plan: PlanReply)
    requires !plan.Planned? && plan == d.plan(x.cursor, x.fingerprints)
    ensures AttemptFrom(usable, d, x, Planning) ==
            EndOf(plan, Trouble(usable, OnlyPlan(plan)), AtEnd(usable, OnlyPlan(plan), x))
  {
    UnplannedTells(usable, plan, x);
    AttemptUnfolds(usable, d, x, OnlyPlan(plan));
    EndOfUnplanned(AttemptFrom(usable, d, x, Planning), plan, AtStart(OnlyPlan(plan), x),
                   Trouble(usable, OnlyPlan(plan)), AtEnd(usable, OnlyPlan(plan), x));
  }

  lemma EndOfUnplanned(turn: Turn, plan: PlanReply, start: Tally, trouble: Option<FailureStage>, end: Tally)
    requires !plan.Planned? && turn == (if plan.PlanFailed? then Fail(CompanyDiscovery) else Halt(start))
    requires trouble == (if plan.PlanFailed? then Some(CompanyDiscovery) else None) && end == start
    ensures turn == EndOf(plan, trouble, end)
  {
  }

  /** Every attempt ends as its replies say, with the counters it should leave. */
  lemma AttemptTells(usable: Option<string> -> Option<string>, d: Dependencies, x: Tally, h: Replies)
    requires Hears(usable, d, x.cursor, x.fingerprints, h)
    ensures AttemptFrom(usable, d, x, Planning) == EndOf(h.plan, Trouble(usable, h), AtEnd(usable, h, x))
  {
    if h.plan.Planned? {
      PlannedTells(usable, d, x, h);
    } else {
      StoppedTells(usable, d, x, h);
    }
  }

  // ----- A run is what its attempts were told ---------------------------------------------------------

  function SeenIn(history: seq<Replies>): set<string> {
    if |history| == 0 then {} else SeenIn(history[..|history| - 1]) + FingerprintSaid(history[|history| - 1])
  }

  /** The replies of the first n attempts: attempt j is asked at offset j, with the fingerprints named before it. */
  function History(usable: Option<string> -> Option<string>, env: nat -> Dependencies, n: nat): (history: seq<Replies>)
    ensures |history| == n
  {
    if n == 0 then []
    else
      var earlier := History(usable, env, n - 1);
      earlier + [Heard(usable, env(n - 1), n - 1, SeenIn(earlier))]
  }

  function DonesIn(usable: Option<string> -> Option<string>, history: seq<Replies>): seq<Done> {
    if |history| == 0 then []
    else DonesIn(usable, history[..|history| - 1]) + DoneSaid(usable, history[|history| - 1])
  }

  function ExitsIn(usable: Option<string> -> Option<string>, history: seq<Replies>): Exits {
    if |history| == 0 then NoExits()
    else PlusExits(ExitsIn(usable, history[..|history| - 1]), ExitsSaid(usable, history[|history| - 1]))
  }

  function MadeIn(history: seq<Replies>): Made {
    if |history| == 0 then NothingMade()
    else PlusMade(MadeIn(history[..|history| - 1]), MadeSaid(history[|history| - 1]))
  }

  function SpentIn(history: seq<Replies>): Spent {
    if |history| == 0 then NothingSpent()
    else PlusSpent(SpentIn(history[..|history| - 1]), SpentSaid(history[|history| - 1]))
  }

  function PlansIn(history: seq<Replies>): nat {
    if |history| == 0 then 0 else PlansIn(history[..|history| - 1]) + One(history[|history| - 1].plan.Planned?)
  }

  /** What a history adds up to. */
  function TotalOf(usable: Option<string> -> Option<string>, history: seq<Replies>): Tally {
    Tally(|history|, PlansIn(history), SeenIn(history), ExitsIn(usable, history), MadeIn(history), SpentIn(history),
          CompletedOf(DonesIn(usable, history)))
  }

  /** The run goes on: its last attempt neither raised nor was stopped, and the limit is not reached. */
  predicate GoesOn(usable: Option<string> -> Option<string>, history: seq<Replies>, limit: nat) {
    && (|history| > 0 ==>
        Trouble(usable, history[|history| - 1]).None? && !history[|history| - 1].plan.ProviderStop?)
    && |DonesIn(usable, history)| < limit
  }

  /** How many of at most k attempts a run makes. */
  function AttemptsMade(usable: Option<string> -> Option<string>, env: nat -> Dependencies, limit: nat, k: nat):
    (n: nat)
    ensures n <= k
  {
    if k == 0 then 0
    else
      var n := AttemptsMade(usable, env, limit, k - 1);
      if n == k - 1 && GoesOn(usable, History(usable, env, n), limit) then k else n
  }

  /** How a run with a history ends. */
  function HistoryEnd(usable: Option<string> -> Option<string>, history: seq<Replies>): Turn {
    if |history| == 0 then Go(EMPTY)
    else
      var last := history[|history| - 1];
      match Trouble(usable, last)
      case Some(stage) => Fail(stage)
      case None => if last.plan.ProviderStop? then Halt(TotalOf(usable, history)) else Go(TotalOf(usable, history))
  }

  lemma OneMoreReply(usable: Option<string> -> Option<string>, history: seq<Replies>, h: Replies)
    ensures AtEnd(usable, h, TotalOf(usable, history)) == TotalOf(usable, history + [h])
  {
    var more := history + [h];
    assert more[..|history|] == history;
    OneMoreDone(DonesIn(usable, history), DoneSaid(usable, h));
    SpentAgain(SpentIn(history), SpentSaid(h));
  }

  lemma SpentAgain(a: Spent, b: Spent)
    ensures PlusSpent(PlusSpent(a, NothingSpent()), b) == PlusSpent(a, b)
  {
  }

  lemma NothingHeard(usable: Option<string> -> Option<string>)
    ensures TotalOf(usable, []) == EMPTY
  {
  }

  /**
   From one of a row of ends to the next: an open one makes one more attempt, which ends as the next does, if the
   rounds so far ended there.
   */
  ghost predicate StepsOn(attempt: (nat, Tally) -> Turn, limit: nat, ends: nat -> Turn, made: nat -> nat, j: nat) {
    && made(j + 1) == (if made(j) == j && Open(ends(j), limit) then j + 1 else made(j))
    && (Open(ends(j), limit) && Rounds(attempt, limit, j) == ends(j) ==> attempt(j, ends(j).tally) == ends(j + 1))
  }

  lemma {:induction false} RoundsStepOn(attempt: (nat, Tally) -> Turn, limit: nat, ends: nat -> Turn,
                                        made: nat -> nat, k: nat)
    requires ends(0) == Go(EMPTY) && made(0) == 0
    requires forall j: nat :: StepsOn(attempt, limit, ends, made, j)
    ensures Rounds(attempt, limit, k) == ends(made(k))
    ensures made(k) == k || !Open(ends(made(k)), limit)
  {
    if k != 0 {
      RoundsStepOn(attempt, limit, ends, made, k - 1);
      assert StepsOn(attempt, limit, ends, made, k - 1);
    }
  }

  /** How a run ends after each number of attempts. */
  function EndsOf(usable: Option<string> -> Option<string>, env: nat -> Dependencies): nat -> Turn {
    (n: nat) => HistoryEnd(usable, History(usable, env, n))
  }

  function AllMade(usable: Option<string> -> Option<string>, env: nat -> Dependencies, limit: nat): nat -> nat {
    (k: nat) => AttemptsMade(usable, env, limit, k)
  }

  lemma HistoryStepsOn(usable: Option<string> -> Option<string>, env: nat -> Dependencies, limit: nat, j: nat)
    requires limit > 0
    ensures StepsOn(Attempts(usable, env), limit, EndsOf(usable, env), AllMade(usable, env, limit), j)
  {
    CountStepsOn(usable, env, limit, j);
    if Open(EndsOf(usable, env)(j), limit) && Rounds(Attempts(usable, env), limit, j) == EndsOf(usable, env)(j) {
      EndStepsOn(usable, env, limit, j);
    }
  }

  lemma CountStepsOn(usable: Option<string> -> Option<string>, env: nat -> Dependencies, limit: nat, j: nat)
    requires limit > 0
    ensures var made := AllMade(usable, env, limit);
      made(j + 1) == if made(j) == j && Open(EndsOf(usable, env)(j), limit) then j + 1 else made(j)
  {
    OpenExactlyWhenGoingOn(usable, History(usable, env, j), limit);
  }

  lemma EndStepsOn(usable: Option<string> -> Option<string>, env: nat -> Dependencies, limit: nat, j: nat)
    requires limit > 0 && Open(EndsOf(usable, env)(j), limit)
    requires Rounds(Attempts(usable, env), limit, j) == EndsOf(usable, env)(j)
    ensures Attempts(usable, env)(j, EndsOf(usable, env)(j).tally) == EndsOf(usable, env)(j + 1)
  {
    CursorAt(usable, env, limit, j);
    OpenEndSteps(usable, env, limit, j, EndsOf(usable, env)(j));
  }

  lemma OpenEndSteps(usable: Option<string> -> Option<string>, env: nat -> Dependencies, limit: nat, j: nat, end: Turn)
    requires limit > 0 && end == HistoryEnd(usable, History(usable, env, j)) && Open(end, limit)
    requires end.tally.cursor == j
    ensures Attempts(usable, env)(j, end.tally) == HistoryEnd(usable, History(usable, env, j + 1))
  {
    OpenExactlyWhenGoingOn(usable, History(usable, env, j), limit);
    NextAttemptTells(usable, env, History(usable, env, j), j, end.tally);
  }

  /**
   Every run is its history: it makes the attempts the history says it makes, and ends, raised, stopped or not, with
   the counters and the id lists its replies add up to.
   */
  lemma RunIsItsHistory(usable: Option<string> -> Option<string>, env: nat -> Dependencies, limit: nat, k: nat)
    requires limit > 0
    ensures Rounds(Attempts(usable, env), limit, k) ==
            HistoryEnd(usable, History(usable, env, AttemptsMade(usable, env, limit, k)))
  {
    forall j: nat
      ensures StepsOn(Attempts(usable, env), limit, EndsOf(usable, env), AllMade(usable, env, limit), j)
    {
      HistoryStepsOn(usable, env, limit, j);
    }
    RoundsStepOn(Attempts(usable, env), limit, EndsOf(usable, env), AllMade(usable, env, limit), k);
  }

  /** A run that is open after k rounds is at offset k and made k attempts. */
  lemma CursorAt(usable: Option<string> -> Option<string>, env: nat -> Dependencies, limit: nat, k: nat)
    requires limit > 0 && Open(Rounds(Attempts(usable, env), limit, k), limit)
    ensures var x := Rounds(Attempts(usable, env), limit, k).tally; x.cursor == x.attempts == k
  {
    RoundsBalance(usable, env, limit, k);
    OpenIsBalanced(Rounds(Attempts(usable, env), limit, k), limit, k);
  }

  lemma OpenExactlyWhenGoingOn(usable: Option<string> -> Option<string>, history: seq<Replies>, limit: nat)
    requires limit > 0
    ensures Open(HistoryEnd(usable, history), limit) <==> GoesOn(usable, history, limit)
    ensures GoesOn(usable, history, limit) ==> HistoryEnd(usable, history) == Go(TotalOf(usable, history))
  {
    NothingHeard(usable);
  }

  lemma NextAttemptTells(usable: Option<string> -> Option<string>, env: nat -> Dependencies, history: seq<Replies>,
                         k: nat, x: Tally)
    requires history == History(usable, env, k) && x == TotalOf(usable, history) && x.cursor == k
    ensures AttemptFrom(usable, env(k), x, Planning) == HistoryEnd(usable, History(usable, env, k + 1))
  {
    var h := Heard(usable, env(k), k, SeenIn(history));
    AttemptTells(usable, env(k), x, h);
    OneMoreReply(usable, history, h);
    assert History(usable, env, k + 1) == history + [h];
  }

  // ----- What a result says of its run ----------------------------------------------------------------

  /** The replies of a whole run. */
  function WholeHistory(usable: Option<string> -> Option<string>, env: nat -> Dependencies, limit: nat): seq<Replies> {
    History(usable, env, AttemptsMade(usable, env, limit, Budget(limit)))
  }

  /** What the outcome of a run says of its replies. */
  predicate ToldBy(usable: Option<string> -> Option<string>, history: seq<Replies>, limit: nat,
                   exportFile: Option<string>, exported: ExportReply, outcome: Result<AcquisitionResult, FailureStage>)
    requires limit > 0
  {
    match outcome
    case Ok(r) =>
      && r.tally == TotalOf(usable, history) && r.limit == limit && r.budget == Budget(limit)
      && (r.status == Complete <==> |DonesIn(usable, history)| == limit)
      && (r.status == PartialProviderStop <==> |history| > 0 && history[|history| - 1].plan.ProviderStop?)
      && (r.budgetExhausted <==> r.status == PartialBudgetExhausted)
      && (exportFile.None? <==> r.exportStatus == NotRequested)
      && (r.exportStatus == ExportSucceeded ==> exported.Exported? && r.exportFile == Some(exported.file))
      && (r.exportStatus == ExportFailed ==> !exported.Exported? && r.exportFile == exportFile)
    case Err(stage) =>
      stage == ResultSerialization || (|history| > 0 && Trouble(usable, history[|history| - 1]) == Some(stage))
  }

  /**
   A result has the totals of its run's replies, and its status by them: complete at the limit, stopped exactly if the
   last reply was the provider's stop. A run that raises does so for its last attempt, or for its own result.
   */
  lemma ResultsAreTold(usable: Option<string> -> Option<string>, env: nat -> Dependencies, limit: nat,
                       exportFile: Option<string>, exported: ExportReply)
    requires limit > 0
    ensures ToldBy(usable, WholeHistory(usable, env, limit), limit, exportFile, exported,
                   Conclude(limit, exportFile, exported, Rounds(Attempts(usable, env), limit, Budget(limit))))
  {
    RunIsItsHistory(usable, env, limit, Budget(limit));
    StopIsBelowLimit(usable, env, limit);
    ConcludedAsTold(usable, WholeHistory(usable, env, limit), limit, exportFile, exported,
                    Rounds(Attempts(usable, env), limit, Budget(limit)));
  }

  lemma StopIsBelowLimit(usable: Option<string> -> Option<string>, env: nat -> Dependencies, limit: nat)
    requires limit > 0
    ensures var end := Rounds(Attempts(usable, env), limit, Budget(limit));
      end.Halt? ==> end.tally.completed.count < limit
  {
    RoundsBalance(usable, env, limit, Budget(limit));
  }

  lemma ConcludedAsTold(usable: Option<string> -> Option<string>, history: seq<Replies>, limit: nat,
                        exportFile: Option<string>, exported: ExportReply, end: Turn)
    requires limit > 0 && end == HistoryEnd(usable, history)
    requires end.Halt? ==> end.tally.completed.count < limit
    ensures ToldBy(usable, history, limit, exportFile, exported, Conclude(limit, exportFile, exported, end))
  {
    EndTold(usable, history, end);
    StatusesOf(limit, exportFile, exported, end);
  }

  lemma EndTold(usable: Option<string> -> Option<string>, history: seq<Replies>, end: Turn)
    requires end == HistoryEnd(usable, history)
    ensures end.Fail? ==> |history| > 0 && Trouble(usable, history[|history| - 1]) == Some(end.stage)
    ensures !end.Fail? ==>
      && end.tally == TotalOf(usable, history) && end.tally.completed.count == |DonesIn(usable, history)|
      && (end.Halt? <==> |history| > 0 && history[|history| - 1].plan.ProviderStop?)
  {
    NothingHeard(usable);
  }

  lemma StatusesOf(limit: nat, exportFile: Option<string>, exported: ExportReply, end: Turn)
    requires end.Halt? ==> end.tally.completed.count < limit
    ensures match Conclude(limit, exportFile, exported, end)
      case Ok(r) =>
        && !end.Fail? && r.tally == end.tally && r.limit == limit && r.budget == Budget(limit)
        && (r.status == Complete <==> end.tally.completed.count == limit)
        && (r.status == PartialProviderStop <==> end.Halt?)
        && (r.budgetExhausted <==> r.status == PartialBudgetExhausted)
        && (exportFile.None? <==> r.exportStatus == NotRequested)
        && (r.exportStatus == ExportSucceeded ==> exported.Exported? && r.exportFile == Some(exported.file))
        && (r.exportStatus == ExportFailed ==> !exported.Exported? && r.exportFile == exportFile)
      case Err(stage) => stage == ResultSerialization || end == Fail(stage)
  {
  }

  lemma {:induction false} HistoryAt(usable: Option<string> -> Option<string>, env: nat -> Dependencies, n: nat,
                                     j: nat)
    requires j < n
    ensures var history := History(usable, env, n);
      history[j] == Heard(usable, env(j), j, SeenIn(history[..j]))
  {
    var earlier := History(usable, env, n - 1);
    assert History(usable, env, n)[..n - 1] == earlier;
    if j < n - 1 {
      HistoryAt(usable, env, n - 1, j);
      assert History(usable, env, n)[..j] == earlier[..j];
    }
  }

  lemma HistoryHears(usable: Option<string> -> Option<string>, env: nat -> Dependencies, n: nat, j: nat)
    requires j < n
    ensures var history := History(usable, env, n);
      Hears(usable, env(j), j, SeenIn(history[..j]), history[j])
  {
    HistoryAt(usable, env, n, j);
  }

  lemma {:induction false} DoneComesFrom(usable: Option<string> -> Option<string>, history: seq<Replies>, i: nat)
    returns (j: nat)
    requires i < |DonesIn(usable, history)|
    ensures j < |history| && DoneSaid(usable, history[j]) == [DonesIn(usable, history)[i]]
  {
    var n := |history| - 1;
    var earlier := DonesIn(usable, history[..n]);
    if i < |earlier| {
      j := DoneComesFrom(usable, history[..n], i);
    } else {
      j := n;
    }
  }

  /** The replies that give a completion its ids. */
  predicate Gives(h: Replies, companyId: int, leadId: int, taskId: int, draftId: int) {
    && CompanyOf(h) == Some(companyId)
    && h.draft.Some? && h.draft.value.Drafted? && h.draft.value.draft.draftId == draftId
    && h.draft.value.draft.created && h.draft.value.draft.leadId == leadId
    && ((h.contact.Some? && h.contact.value.ContactApplied? && h.contact.value.contact.leadId == leadId
         && h.contact.value.contact.taskId == taskId
         && h.draft.value.draft.contactId == Some(h.contact.value.contact.contactId))
        || (h.completion.Some? && h.completion.value.CompanyCompleted?
            && h.completion.value.completion.leadId == leadId && h.completion.value.completion.taskId == taskId
            && h.draft.value.draft.contactId == None))
  }

  /**
   The ids at one place of a result's lists come from one attempt: its contact apply or its completion gave the lead
   and the task for the company, and its draft call gave the draft.
   */
  lemma IdsComeFromOneAttempt(usable: Option<string> -> Option<string>, env: nat -> Dependencies, limit: nat,
                              exportFile: Option<string>, exported: ExportReply, r: AcquisitionResult, i: nat)
    returns (j: nat)
    requires limit > 0
    requires Conclude(limit, exportFile, exported, Rounds(Attempts(usable, env), limit, Budget(limit))) == Ok(r)
    requires i < r.tally.completed.count
    ensures var history := WholeHistory(usable, env, limit);
      var c := r.tally.completed;
      && j < |history| == r.tally.attempts && Hears(usable, env(j), j, SeenIn(history[..j]), history[j])
      && |c.companyIds| == |c.leadIds| == |c.taskIds| == |c.draftIds| == c.count
      && Gives(history[j], c.companyIds[i], c.leadIds[i], c.taskIds[i], c.draftIds[i])
  {
    var history := WholeHistory(usable, env, limit);
    ResultsAreTold(usable, env, limit, exportFile, exported);
    TotalsTold(usable, history, r.tally);
    j := IdsComeFromReplies(usable, history, r.tally.completed, i);
    HistoryHears(usable, env, |history|, j);
  }

  lemma TotalsTold(usable: Option<string> -> Option<string>, history: seq<Replies>, x: Tally)
    requires x == TotalOf(usable, history)
    ensures x.attempts == |history| && x.completed == CompletedOf(DonesIn(usable, history))
  {
  }

  lemma IdsComeFromReplies(usable: Option<string> -> Option<string>, history: seq<Replies>, c: Completed, i: nat)
    returns (j: nat)
    requires c == CompletedOf(DonesIn(usable, history)) && i < c.count
    ensures |c.companyIds| == |c.leadIds| == |c.taskIds| == |c.draftIds| == c.count
    ensures j < |history| && Gives(history[j], c.companyIds[i], c.leadIds[i], c.taskIds[i], c.draftIds[i])
  {
    j := DoneComesFrom(usable, history, i);
    DoneIsGiven(usable, history[j]);
  }

  lemma DoneIsGiven(usable: Option<string> -> Option<string>, h: Replies)
    requires DoneSaid(usable, h) != []
    ensures var done := DoneSaid(usable, h)[0];
      && Gives(h, done.addressee.companyId, done.addressee.leadId, done.addressee.taskId, done.draftId)
      && h.draft.value.draft.contactId == done.addressee.contactId
  {
  }

  /** The contacts of a result are, in order, those of its person-scoped completions. */
  lemma {:induction false} ContactsAreThePersons(dones: seq<Done>, i: nat) returns (k: nat)
    requires i < |PersonsOf(dones)|
    ensures k < |dones| && dones[k].addressee.contactId == Some(PersonsOf(dones)[i]) && |PersonsOf(dones[..k])| == i
  {
    var n := |dones| - 1;
    if i < |PersonsOf(dones[..n])| {
      k := ContactsAreThePersons(dones[..n], i);
      assert dones[..n][..k] == dones[..k];
    } else {
      k := n;
    }
  }
}
