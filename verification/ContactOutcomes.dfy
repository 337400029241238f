/** What a successful contact apply leaves behind: the contact row itself, and the one contact of an address. */
module ContactOutcomes {
  import opened Common
  import opened Text
  import opened DiscoveryTables
  import opened ContactPlanHandoff
  import opened ContactApply

  // ----- The address of a candidate ---------------------------------------------------------------------

  /**
   A candidate's address is the one its raw and its stored address have in common, each as far as it is given: the raw
   one normalises to it, the stored one is it and normalises to itself. It has none exactly if neither is given.
   */
  lemma ResolvedExactlyWhen(rules: Rules, raw: Option<string>, stored: Option<string>, email: string)
    ensures ResolveEmail(rules, raw, stored) == Valid(None) <==> raw.None? && stored.None?
    ensures ResolveEmail(rules, raw, stored) == Valid(Some(email)) <==>
      && (raw.Some? || stored.Some?)
      && (raw.Some? ==> rules.normalizeEmail(raw.value) == Valid(Some(email)))
      && (stored.Some? ==> stored.value == email && rules.normalizeEmail(email) == Valid(Some(email)))
  {
  }

  // ----- The contact of an apply --------------------------------------------------------------------------

  /** The contact with the address that has the lowest id, among those handed out. */
  ghost predicate LowestWithEmail(rules: Rules, s: Crm, companyId: nat, email: string, id: nat) {
    && id < s.nextContact && id in s.contacts && HasEmail(rules, s.contacts[id], companyId, email)
    && forall other :: other in s.contacts && HasEmail(rules, s.contacts[other], companyId, email) ==> id <= other
  }

  ghost predicate NobodyHasEmail(rules: Rules, s: Crm, companyId: nat, email: string) {
    forall id :: id in s.contacts && id < s.nextContact ==> !HasEmail(rules, s.contacts[id], companyId, email)
  }

  lemma {:induction false} FoundIsLowest(rules: Rules, s: Crm, bound: nat, companyId: nat, email: string)
    ensures match FindByEmail(rules, s.contacts, bound, companyId, email)
      case None => forall id :: id in s.contacts && id < bound ==> !HasEmail(rules, s.contacts[id], companyId, email)
      case Some(id) =>
        && id < bound && id in s.contacts && HasEmail(rules, s.contacts[id], companyId, email)
        && forall other :: other in s.contacts && other < id ==> !HasEmail(rules, s.contacts[other], companyId, email)
  {
    if bound != 0 {
      FoundIsLowest(rules, s, bound - 1, companyId, email);
    }
  }

  /** What a success reports of the contact, against the candidate's row and the contacts before and after. */
  ghost predicate ContactSettled(rules: Rules, s: Crm, after: Crm, companyId: nat, row: ContactCandidate,
                                 contactId: nat, created: bool)
  {
    if row.status == Promoted then
      !created && row.promotedContact == Some(contactId) && after.contacts == s.contacts
    else
      var person, email := rules.personOf(row.name, row.title, row.phone),
        ResolveEmail(rules, row.email, row.normalizedEmail);
      && person.Valid? && email.Valid?
      && (created ==>
          && contactId == s.nextContact
          && after.contacts == s.contacts[contactId := ContactRow(companyId, person.value, email.value)]
          && (email.value.Some? ==> NobodyHasEmail(rules, s, companyId, email.value.value)))
      && (!created ==>
          && after.contacts == s.contacts && email.value.Some?
          && LowestWithEmail(rules, s, companyId, email.value.value, contactId))
  }

  lemma PromotionSettles(rules: Rules, s: Crm, companyId: nat, candidateId: nat)
    requires OfCompany(s, companyId, candidateId)
      && PromoteContact(rules, AfterReview(s, candidateId), companyId, candidateId).Ok?
    ensures var (after, p) := PromoteContact(rules, AfterReview(s, candidateId), companyId, candidateId).value;
      ContactSettled(rules, s, after, companyId, s.candidates[candidateId], p.contactId, p.created)
  {
    var row := s.candidates[candidateId];
    if row.status != Promoted {
      ReviewedSettles(rules, AfterReview(s, candidateId), companyId, candidateId);
      SameContactsSettle(rules, s, AfterReview(s, candidateId), row,
                         PromoteContact(rules, AfterReview(s, candidateId), companyId, candidateId).value.0,
                         companyId, PromoteContact(rules, AfterReview(s, candidateId), companyId, candidateId).value.1);
    }
  }

  lemma ReviewedSettles(rules: Rules, s: Crm, companyId: nat, candidateId: nat)
    requires OfCompany(s, companyId, candidateId) && s.candidates[candidateId].status == Reviewed
    requires PromoteContact(rules, s, companyId, candidateId).Ok?
    ensures var (after, p) := PromoteContact(rules, s, companyId, candidateId).value;
      ContactSettled(rules, s, after, companyId, s.candidates[candidateId], p.contactId, p.created)
  {
    var row := s.candidates[candidateId];
    var email := ResolveEmail(rules, row.email, row.normalizedEmail);
    if email.Valid? && email.value.Some? {
      FoundIsLowest(rules, s, s.nextContact, companyId, email.value.value);
    }
  }

  /** A review touches neither the contacts nor what a promotion reads of the candidate. */
  lemma SameContactsSettle(rules: Rules, s: Crm, reviewed: Crm, row: ContactCandidate, after: Crm, companyId: nat,
                           p: ContactPromotion)
    requires reviewed.contacts == s.contacts && reviewed.nextContact == s.nextContact && row.status != Promoted
    requires ContactSettled(rules, reviewed, after, companyId, row.(status := Reviewed), p.contactId, p.created)
    ensures ContactSettled(rules, s, after, companyId, row, p.contactId, p.created)
  {
  }

  /**
   The contact of a successful apply. One that is created has the person mapped from the candidate and the candidate's
   address, and nobody of the company had that address; one that is reused is the lowest with the address, or the one
   the candidate was promoted to before, and no contact changes.
   */
  lemma ContactOfApply(rules: Rules, s: Crm, data: ContactApplyInput)
    requires ApplyContact(rules, s, data).Ok?
    ensures OfCompany(s, data.companyId, data.candidateId)
    ensures var (after, r) := ApplyContact(rules, s, data).value;
      && r.contactReused == !r.contactCreated && r.before == s.candidates[data.candidateId].status
      && ContactSettled(rules, s, after, data.companyId, s.candidates[data.candidateId], r.contactId, r.contactCreated)
      && after.nextContact == s.nextContact + One(r.contactCreated)
  {
    ApplySteps(rules, s, data);
    PromotionSettles(rules, s, data.companyId, data.candidateId);
    PromotedAfterReview(rules, s, data.companyId, data.candidateId);
    var (promoted, p) := PromoteContact(rules, AfterReview(s, data.candidateId), data.companyId,
                                        data.candidateId).value;
    MaterializedRows(promoted, data, s.candidates[data.candidateId].status, p.contactId, p.created, SubjectOf(s, data));
    MaterializedCounts(promoted, data, s.candidates[data.candidateId].status, p.contactId, p.created,
                       SubjectOf(s, data));
  }

  // ----- One contact for one address ------------------------------------------------------------------------

  /** No contact was lost or changed, and what was added got ids handed out since. */
  ghost predicate ContactsGrow(s: Crm, now: Crm) {
    && s.nextContact <= now.nextContact
    && (forall id :: id in s.contacts ==> id in now.contacts && now.contacts[id] == s.contacts[id])
    && (forall id :: id in now.contacts && id !in s.contacts ==> s.nextContact <= id)
  }

  ghost predicate ContactsKeyed(s: Crm) {
    forall id :: id in s.contacts ==> id < s.nextContact
  }

  /** An apply only adds contacts. */
  lemma ApplyGrowsContacts(rules: Rules, s: Crm, data: ContactApplyInput)
    requires ContactsKeyed(s) && ApplyContact(rules, s, data).Ok?
    ensures ContactsGrow(s, ApplyContact(rules, s, data).value.0) && ContactsKeyed(ApplyContact(rules, s, data).value.0)
  {
    ContactOfApply(rules, s, data);
    var (after, r) := ApplyContact(rules, s, data).value;
    SettledGrows(rules, s, after, data.companyId, s.candidates[data.candidateId], r.contactId, r.contactCreated);
  }

  lemma SettledGrows(rules: Rules, s: Crm, after: Crm, companyId: nat, row: ContactCandidate, contactId: nat,
                     created: bool)
    requires ContactsKeyed(s) && ContactSettled(rules, s, after, companyId, row, contactId, created)
    requires after.nextContact == s.nextContact + One(created)
    ensures ContactsGrow(s, after) && ContactsKeyed(after)
  {
  }

  lemma GrowsTransitive(a: Crm, b: Crm, c: Crm)
    requires ContactsGrow(a, b) && ContactsGrow(b, c)
    ensures ContactsGrow(a, c)
  {
  }

  /** What the apply of a candidate with an address leaves: the contact it ends on is the lowest with that address. */
  lemma AppliedIsLowest(rules: Rules, s: Crm, data: ContactApplyInput, email: string)
    requires ContactsKeyed(s) && ApplyContact(rules, s, data).Ok? && rules.storedForm(email) == email
    requires OfCompany(s, data.companyId, data.candidateId) && s.candidates[data.candidateId].status != Promoted
    requires ResolveEmail(rules, s.candidates[data.candidateId].email, s.candidates[data.candidateId].normalizedEmail)
      == Valid(Some(email))
    ensures var (after, r) := ApplyContact(rules, s, data).value;
      LowestWithEmail(rules, after, data.companyId, email, r.contactId)
  {
    ContactOfApply(rules, s, data);
    var (after, r) := ApplyContact(rules, s, data).value;
    SettledIsLowest(rules, s, after, data.companyId, s.candidates[data.candidateId], r.contactId, r.contactCreated,
                    email);
  }

  lemma SettledIsLowest(rules: Rules, s: Crm, after: Crm, companyId: nat, row: ContactCandidate, contactId: nat,
                        created: bool, email: string)
    requires ContactsKeyed(s) && ContactSettled(rules, s, after, companyId, row, contactId, created)
    requires after.nextContact == s.nextContact + One(created) && row.status != Promoted
    requires ResolveEmail(rules, row.email, row.normalizedEmail) == Valid(Some(email))
    requires rules.storedForm(email) == email
    ensures LowestWithEmail(rules, after, companyId, email, contactId)
  {
  }

  lemma LowestStays(rules: Rules, s: Crm, now: Crm, companyId: nat, email: string, id: nat)
    requires LowestWithEmail(rules, s, companyId, email, id) && ContactsGrow(s, now)
    ensures LowestWithEmail(rules, now, companyId, email, id)
  {
  }

  /** The tables after some applies, one after the other; one that fails is rolled back. */
  function AppliedAll(rules: Rules, s: Crm, inputs: seq<ContactApplyInput>): Crm {
    if |inputs| == 0 then s
    else
      var before := AppliedAll(rules, s, inputs[..|inputs| - 1]);
      match ApplyContact(rules, before, inputs[|inputs| - 1])
      case Ok((after, _)) => after
      case Err(_) => before
  }

  lemma {:induction false} AppliesGrowContacts(rules: Rules, s: Crm, inputs: seq<ContactApplyInput>)
    requires ContactsKeyed(s)
    ensures ContactsGrow(s, AppliedAll(rules, s, inputs)) && ContactsKeyed(AppliedAll(rules, s, inputs))
  {
    if |inputs| != 0 {
      var before := AppliedAll(rules, s, inputs[..|inputs| - 1]);
      AppliesGrowContacts(rules, s, inputs[..|inputs| - 1]);
      if ApplyContact(rules, before, inputs[|inputs| - 1]).Ok? {
        ApplyGrowsContacts(rules, before, inputs[|inputs| - 1]);
        GrowsTransitive(s, before, AppliedAll(rules, s, inputs));
      }
    }
  }

  /** The candidate of an apply, not yet promoted, has the address. */
  predicate Brings(rules: Rules, s: Crm, data: ContactApplyInput, email: string) {
    && OfCompany(s, data.companyId, data.candidateId)
    && var row := s.candidates[data.candidateId];
       row.status != Promoted && ResolveEmail(rules, row.email, row.normalizedEmail) == Valid(Some(email))
  }

  /**
   Two candidates of a company with one address end on one contact, whatever applies lie between, if a normal address
   is stored as it is.
   */
  lemma OneContactForOneAddress(rules: Rules, s: Crm, first: ContactApplyInput, between: seq<ContactApplyInput>,
                                second: ContactApplyInput, email: string)
    requires ContactsKeyed(s) && ApplyContact(rules, s, first).Ok? && rules.storedForm(email) == email
    requires Brings(rules, s, first, email) && second.companyId == first.companyId
    requires var now := AppliedAll(rules, ApplyContact(rules, s, first).value.0, between);
      Brings(rules, now, second, email) && ApplyContact(rules, now, second).Ok?
    ensures var now := AppliedAll(rules, ApplyContact(rules, s, first).value.0, between);
      var r := ApplyContact(rules, now, second).value.1;
      r.contactReused && r.contactId == ApplyContact(rules, s, first).value.1.contactId
  {
    var (after, r) := ApplyContact(rules, s, first).value;
    var now := AppliedAll(rules, after, between);
    AppliedIsLowest(rules, s, first, email);
    ApplyGrowsContacts(rules, s, first);
    AppliesGrowContacts(rules, after, between);
    LowestStays(rules, after, now, first.companyId, email, r.contactId);
    ContactOfApply(rules, now, second);
  }

  // ----- When it is applied ---------------------------------------------------------------------------------

  /**
   An apply succeeds only if it is confirmed, the company is of the project, its discovery ended SUCCEEDED or PARTIAL,
   the candidate is of the company and not REJECTED, and the token is the one of the rows as they are.
   */
  lemma AppliedOnlyWhen(rules: Rules, s: Crm, data: ContactApplyInput)
    requires ApplyContact(rules, s, data).Ok?
    ensures data.confirmed && 1 <= |Collapse(data.goal)| <= 2000
    ensures data.companyId in s.companies && s.companies[data.companyId].projectId == data.projectId
    ensures data.companyId in s.states && s.states[data.companyId].status in {Succeeded, Partial}
    ensures OfCompany(s, data.companyId, data.candidateId) && s.candidates[data.candidateId].status != Rejected
    ensures Token(rules.hash, SubjectOf(s, data)) == Valid(data.token)
  {
    ApplySteps(rules, s, data);
    ReadOnlyWhen(s, data);
    VerifiedOnlyWhen(rules, s, data);
  }

  lemma ReadOnlyWhen(s: Crm, data: ContactApplyInput)
    requires ReadRows(s, data).Ok?
    ensures data.companyId in s.companies && s.companies[data.companyId].projectId == data.projectId
    ensures data.companyId in s.states && OfCompany(s, data.companyId, data.candidateId)
  {
  }

  lemma VerifiedOnlyWhen(rules: Rules, s: Crm, data: ContactApplyInput)
    requires Verify(rules, s, data).Ok?
    ensures ReadRows(s, data).Ok? && s.states[data.companyId].status in {Succeeded, Partial}
    ensures s.candidates[data.candidateId].status != Rejected
    ensures Token(rules.hash, SubjectOf(s, data)) == Valid(data.token)
  {
  }

  // ----- The lead and the task it leaves --------------------------------------------------------------------

  /** The lead and the task of a success, as rows. */
  lemma LeadAndTaskOfApply(rules: Rules, s: Crm, data: ContactApplyInput)
    requires ApplyContact(rules, s, data).Ok?
    ensures OfCompany(s, data.companyId, data.candidateId) && data.companyId in s.companies
    ensures ContactText(Some(s.companies[data.companyId].name)).Some?
      && ContactText(s.candidates[data.candidateId].name).Some?
    ensures var (after, r) := ApplyContact(rules, s, data).value;
      var row := s.candidates[data.candidateId];
      var proposals := BuildProposals(ContactText(Some(s.companies[data.companyId].name)).value,
                                      ContactText(row.name).value, ContactText(row.title), Collapse(data.goal));
      && r.leadId in after.leads
      && after.leads[r.leadId] == Lead(data.companyId, Some(r.contactId), "NEW", None, None)
      && r.taskId in after.tasks
      && after.tasks[r.taskId] == Task(r.leadId, proposals.taskTitle, Some(proposals.taskDescription), "TODO", None)
      && after.candidates == s.candidates[data.candidateId := row.(status := Promoted,
                                                                   promotedContact := Some(r.contactId))]
  {
    AppliedRows(rules, s, data);
  }
}
