/**
 The confirmed apply of a contact plan: verify the handoff, review and promote the candidate, and find or create
 its contact, lead and task.
 */
module ContactApply {
  import opened Common
  import opened Text
  import opened ContactPlanHandoff
  import opened DiscoveryTables

  // ----- The tables ----------------------------------------------------------------------------------------

  datatype CompanyRow = CompanyRow(projectId: nat, name: string, website: Option<string>)

  datatype StateRow = StateRow(provider: string, status: RunStatus, checkedAt: Stamp, lastError: Option<string>)

  datatype ContactCandidate = ContactCandidate(
    companyId: nat, promotedContact: Option<nat>, name: Option<string>, title: Option<string>, email: Option<string>,
    normalizedEmail: Option<string>, phone: Option<string>, sourceUrl: Option<string>, sourceType: SourceType,
    confidence: nat, status: CandidateStatus, key: string)

  datatype Person = Person(firstName: string, lastName: Option<string>, jobTitle: Option<string>, phone: Option<string>)

  datatype ContactRow = ContactRow(companyId: nat, person: Person, email: Option<string>)

  datatype Lead = Lead(companyId: nat, contactId: Option<nat>, status: string, source: Option<string>,
                       notes: Option<string>)

  datatype Task = Task(leadId: nat, title: string, description: Option<string>, status: string, dueAt: Option<int>)

  datatype Crm = Crm(
    companies: map<nat, CompanyRow>, states: map<nat, StateRow>, candidates: map<nat, ContactCandidate>,
    contacts: map<nat, ContactRow>, nextContact: nat, leads: map<nat, Lead>, nextLead: nat, tasks: map<nat, Task>,
    nextTask: nat)

  /**
   What is taken from elsewhere: the token hash, the email normaliser, the database's `lower(trim(..))`, the
   name mapping.
   */
  datatype Rules = Rules(
    hash: Payload -> string,
    normalizeEmail: string -> Checked<Option<string>>,
    storedForm: string -> string,
    personOf: (Option<string>, Option<string>, Option<string>) -> Checked<Person>)

  datatype ContactApplyInput = ContactApplyInput(
    projectId: nat, companyId: nat, candidateId: nat, goal: string, token: string, confirmed: bool)

  datatype ContactApplyError =
    | ContactConfirmationRequired | InvalidGoal | ContactNotFound | StaleToken | ContactNotEligible
    | InconsistentRows | ConflictingRows | NotStored

  datatype ContactApplyResult = ContactApplyResult(
    contactId: nat, leadId: nat, taskId: nat, before: CandidateStatus, reviewed: bool, promoted: bool,
    contactCreated: bool, contactReused: bool, leadCreated: bool, leadReused: bool, taskCreated: bool, taskReused: bool,
    stagingMutated: bool, crmMutated: bool, contactMutations: nat, leadMutations: nat, taskMutations: nat)

  /** The invariants a result must meet to be built. */
  predicate ValidInvariants(r: ContactApplyResult) {
    && r.contactId > 0 && r.leadId > 0 && r.taskId > 0
    && r.contactCreated == !r.contactReused && r.leadCreated == !r.leadReused && r.taskCreated == !r.taskReused
    && r.contactMutations == One(r.contactCreated) && r.leadMutations == One(r.leadCreated)
    && (r.taskMutations == One(r.taskCreated) || r.taskMutations == 1)
    && (match r.before
        case Discovered => r.reviewed && r.promoted
        case Reviewed => !r.reviewed && r.promoted
        case Promoted => !r.reviewed && !r.promoted
        case Rejected => false)
    && r.stagingMutated == (r.reviewed || r.promoted)
    && r.crmMutated == (r.contactMutations > 0 || r.leadMutations > 0 || r.taskMutations > 0)
  }

  // ----- Verifying the handoff ------------------------------------------------------------------------------

  predicate OfCompany(s: Crm, companyId: nat, candidateId: nat) {
    candidateId in s.candidates && s.candidates[candidateId].companyId == companyId
  }

  predicate CleanProvider(provider: string) {
    Strip(provider) != "" && |provider| <= 100 && provider == Collapse(provider)
  }

  predicate CleanCandidate(row: ContactCandidate) {
    && ContactText(row.name).Some? && row.confidence <= 100 && Strip(row.key) != ""
    && (row.status == Promoted <==> row.promotedContact.Some?) && row.promotedContact != Some(0)
  }

  function SubjectOf(s: Crm, data: ContactApplyInput): Subject
    requires data.companyId in s.companies && data.companyId in s.states && data.candidateId in s.candidates
  {
    var company, state, row := s.companies[data.companyId], s.states[data.companyId], s.candidates[data.candidateId];
    Subject(data.projectId, data.companyId, Some(company.name), company.website, data.goal, state.provider,
            state.checkedAt,
            data.candidateId, row.key, row.name, row.title, row.email, row.phone, row.sourceUrl, row.sourceType,
            row.confidence)
  }

  /** The rows of the handoff are there and readable. */
  function ReadRows(s: Crm, data: ContactApplyInput): Result<(), ContactApplyError> {
    if data.companyId !in s.companies
      || s.companies[data.companyId].projectId != data.projectId then Err(ContactNotFound)
    else
      var company := s.companies[data.companyId];
      if ContactText(Some(company.name)).None? || ContactText(company.website).None? then Err(InconsistentRows)
      else if data.companyId !in s.states then Err(ContactNotFound)
      else if Instant(s.states[data.companyId].checkedAt).Invalid?
        || !CleanProvider(s.states[data.companyId].provider) then
        Err(InconsistentRows)
      else if !OfCompany(s, data.companyId, data.candidateId) then Err(ContactNotFound)
      else if !CleanCandidate(s.candidates[data.candidateId]) then Err(InconsistentRows)
      else Ok(())
  }

  /** The token is the one the rows give now, and run and candidate may still be applied. */
  function Verify(rules: Rules, s: Crm, data: ContactApplyInput): Result<(), ContactApplyError> {
    match ReadRows(s, data)
    case Err(error) => Err(error)
    case Ok(_) =>
      match Token(rules.hash, SubjectOf(s, data))
      case Invalid => Err(InconsistentRows)
      case Valid(expected) =>
        if expected != data.token then Err(StaleToken)
        else if s.states[data.companyId].status !in {Succeeded, Partial} then Err(ContactNotEligible)
        else if s.candidates[data.candidateId].status == Rejected then Err(ContactNotEligible)
        else Ok(())
  }

  // ----- Contacts ---------------------------------------------------------------------------------------------

  predicate IsContactOf(s: Crm, companyId: nat, contactId: nat) {
    contactId in s.contacts && s.contacts[contactId].companyId == companyId
  }

  predicate HasEmail(rules: Rules, row: ContactRow, companyId: nat, email: string) {
    row.companyId == companyId && row.email.Some? && rules.storedForm(row.email.value) == email
  }

  /** The contact of a company with the lowest id below `bound` that has the address. */
  function FindByEmail(rules: Rules, contacts: map<nat, ContactRow>, bound: nat, companyId: nat, email: string):
    (found: Option<nat>)
    ensures found.Some? ==>
      found.value in contacts && found.value < bound && HasEmail(rules, contacts[found.value], companyId, email)
    ensures found.None? ==> forall id :: id in contacts && id < bound ==>
      !HasEmail(rules, contacts[id], companyId, email)
  {
    if bound == 0 then None
    else
      var earlier := FindByEmail(rules, contacts, bound - 1, companyId, email);
      if earlier.Some? then earlier
      else if bound - 1 in contacts && HasEmail(rules, contacts[bound - 1], companyId, email) then Some(bound - 1)
      else None
  }

  /** The one address of a candidate: the stored normal form and the raw address must not contradict each other. */
  function ResolveEmail(rules: Rules, raw: Option<string>, stored: Option<string>): Checked<Option<string>> {
    var fromRaw :- if raw.None? then Valid(None) else rules.normalizeEmail(raw.value);
    var fromStored :- if stored.None? then Valid(None) else rules.normalizeEmail(stored.value);
    if (raw.Some? && fromRaw.None?) || fromStored != stored
      || (fromRaw.Some? && fromStored.Some? && fromRaw != fromStored) then Invalid
    else Valid(if fromStored.Some? then fromStored else fromRaw)
  }

  /** The contact the candidate has or will share, found before anything is written. */
  function PreexistingContact(rules: Rules, s: Crm, companyId: nat, row: ContactCandidate):
    Result<Option<nat>, ContactApplyError>
  {
    if row.status == Promoted then
      if row.promotedContact.Some? && IsContactOf(s, companyId, row.promotedContact.value) then Ok(row.promotedContact)
      else Err(InconsistentRows)
    else match ResolveEmail(rules, ContactText(row.email), row.normalizedEmail)
      case Invalid => Err(InconsistentRows)
      case Valid(None) => Ok(None)
      case Valid(Some(email)) =>
        if |email| > 255 then Err(NotStored)
        else match FindByEmail(rules, s.contacts, s.nextContact, companyId, email)
          case None => Ok(None)
          case Some(0) => Err(InconsistentRows)
          case Some(id) => Ok(Some(id))
  }

  datatype ContactPromotion = ContactPromotion(contactId: nat, previous: CandidateStatus, created: bool)

  function WithCandidate(s: Crm, candidateId: nat, row: ContactCandidate): Crm {
    s.(candidates := s.candidates[candidateId := row])
  }

  function FindOrCreateContact(s: Crm, companyId: nat, found: Option<nat>, person: Person, email: Option<string>):
    (Crm, nat)
  {
    match found
    case Some(id) => (s, id)
    case None =>
      (s.(contacts := s.contacts[s.nextContact := ContactRow(companyId, person, email)],
          nextContact := s.nextContact + 1), s.nextContact)
  }

  /** Promotion of a reviewed candidate, or the promotion it already has. */
  function PromoteContact(rules: Rules, s: Crm, companyId: nat, candidateId: nat):
    Result<(Crm, ContactPromotion), ContactApplyError>
  {
    if companyId !in s.companies || !OfCompany(s, companyId, candidateId) then Err(ContactNotFound)
    else
      var row := s.candidates[candidateId];
      if row.status == Promoted then
        if row.promotedContact.Some? && row.promotedContact.value > 0
          && IsContactOf(s, companyId, row.promotedContact.value) then
          Ok((s, ContactPromotion(row.promotedContact.value, Promoted, false)))
        else Err(InconsistentRows)
      else if row.status != Reviewed then Err(ContactNotEligible)
      else if row.promotedContact.Some? then Err(InconsistentRows)
      else match (rules.personOf(row.name, row.title, row.phone), ResolveEmail(rules, row.email, row.normalizedEmail))
        case (Valid(person), Valid(email)) =>
          if email.Some? && |email.value| > 255 then Err(InconsistentRows)
          else
            var found := if email.None? then None
                         else FindByEmail(rules, s.contacts, s.nextContact, companyId, email.value);
            var (after, contactId) := FindOrCreateContact(s, companyId, found, person, email);
            if contactId == 0 || !IsContactOf(after, companyId, contactId) then Err(InconsistentRows)
            else Ok((WithCandidate(after, candidateId, row.(status := Promoted, promotedContact := Some(contactId))),
                     ContactPromotion(contactId, Reviewed, found.None?)))
        case _ => Err(InconsistentRows)
  }

  // ----- Leads and tasks --------------------------------------------------------------------------------------

  function LeadsOf(leads: map<nat, Lead>, bound: nat, contactId: nat): seq<nat> {
    if bound == 0 then []
    else
      LeadsOf(leads, bound - 1, contactId)
      + if bound - 1 in leads && leads[bound - 1].contactId == Some(contactId) then [bound - 1] else []
  }

  function TasksOf(tasks: map<nat, Task>, bound: nat, leadId: nat): seq<nat> {
    if bound == 0 then []
    else
      TasksOf(tasks, bound - 1, leadId)
      + if bound - 1 in tasks && tasks[bound - 1].leadId == leadId then [bound - 1] else []
  }

  predicate UsableLead(lead: Lead, companyId: nat, contactId: nat) {
    lead == Lead(companyId, Some(contactId), "NEW", None, None)
  }

  predicate UsableTask(task: Task, leadId: nat, title: string, description: string) {
    task == Task(leadId, title, Some(description), "TODO", None)
  }

  /** The only lead of a contact, created if there is none. */
  function MaterializeLead(s: Crm, companyId: nat, contactId: nat): Result<(Crm, nat, bool), ContactApplyError> {
    var existing := LeadsOf(s.leads, s.nextLead, contactId);
    if |existing| > 1 then Err(ConflictingRows)
    else if |existing| == 0 then
      if s.nextLead == 0 then Err(ConflictingRows)
      else Ok((s.(leads := s.leads[s.nextLead := Lead(companyId, Some(contactId), "NEW", None, None)],
                  nextLead := s.nextLead + 1),
               s.nextLead, true))
    else if existing[0] > 0 && existing[0] in s.leads
      && UsableLead(s.leads[existing[0]], companyId, contactId) then Ok((s, existing[0], false))
    else Err(ConflictingRows)
  }

  /** The only task of a lead, created if there is none; one with the legacy description gets the current one. */
  function MaterializeTask(s: Crm, leadId: nat, title: string, description: string, legacy: string):
    Result<(Crm, nat, bool, bool), ContactApplyError>
  {
    var existing := TasksOf(s.tasks, s.nextTask, leadId);
    if |existing| > 1 then Err(ConflictingRows)
    else if |existing| == 0 then
      if s.nextTask == 0 then Err(ConflictingRows)
      else Ok((s.(tasks := s.tasks[s.nextTask := Task(leadId, title, Some(description), "TODO", None)],
                  nextTask := s.nextTask + 1),
               s.nextTask, true, false))
    else
      var id := existing[0];
      if id == 0 || id !in s.tasks then Err(ConflictingRows)
      else if UsableTask(s.tasks[id], leadId, title, legacy) then
        Ok((s.(tasks := s.tasks[id := s.tasks[id].(description := Some(description))]), id, false, true))
      else if UsableTask(s.tasks[id], leadId, title, description) then Ok((s, id, false, false))
      else Err(ConflictingRows)
  }

  // ----- Apply --------------------------------------------------------------------------------------------------

  function AfterReview(s: Crm, candidateId: nat): Crm
    requires candidateId in s.candidates
  {
    if s.candidates[candidateId].status == Discovered then
      WithCandidate(s, candidateId, s.candidates[candidateId].(status := Reviewed))
    else s
  }

  function ProposalsOf(x: Subject): Proposals
    requires ContactText(x.companyName).Some? && ContactText(x.name).Some?
  {
    BuildProposals(ContactText(x.companyName).value, ContactText(x.name).value, ContactText(x.title), Collapse(x.goal))
  }

  function LegacyOf(x: Subject): string
    requires ContactText(x.companyName).Some? && ContactText(x.name).Some?
  {
    LegacyDescription(ContactText(x.companyName).value, ContactText(x.name).value, ContactText(x.title),
                      Collapse(x.goal))
  }

  function Report(contactId: nat, leadId: nat, taskId: nat, before: CandidateStatus, contactCreated: bool,
                  leadCreated: bool, taskCreated: bool, taskNormalized: bool): ContactApplyResult
  {
    ContactApplyResult(
      contactId, leadId, taskId, before, before == Discovered, before != Promoted,
      contactCreated, !contactCreated, leadCreated, !leadCreated, taskCreated, !taskCreated,
      before != Promoted, contactCreated || leadCreated || taskCreated || taskNormalized,
      One(contactCreated), One(leadCreated), One(taskCreated || taskNormalized))
  }

  /** Lead and task of a promoted candidate, and the result. */
  function Materialize(s: Crm, data: ContactApplyInput, before: CandidateStatus, contactId: nat, contactCreated: bool,
                       x: Subject):
    Result<(Crm, ContactApplyResult), ContactApplyError>
    requires ContactText(x.companyName).Some? && ContactText(x.name).Some?
  {
    match MaterializeLead(s, data.companyId, contactId)
    case Err(error) => Err(error)
    case Ok((withLead, leadId, leadCreated)) =>
      match MaterializeTask(withLead, leadId, ProposalsOf(x).taskTitle, ProposalsOf(x).taskDescription, LegacyOf(x))
      case Err(error) => Err(error)
      case Ok((withTask, taskId, taskCreated, taskNormalized)) =>
        var result := Report(contactId, leadId, taskId, before, contactCreated, leadCreated, taskCreated,
                             taskNormalized);
        if ValidInvariants(result) then Ok((withTask, result)) else Err(InconsistentRows)
  }

  /** What is checked of a promotion before leads and tasks are touched. */
  predicate PromotionHolds(s: Crm, data: ContactApplyInput, before: CandidateStatus, preexisting: Option<nat>,
                           p: ContactPromotion)
  {
    && p.previous == (if before == Promoted then Promoted else Reviewed)
    && OfCompany(s, data.companyId, data.candidateId) && CleanCandidate(s.candidates[data.candidateId])
    && s.candidates[data.candidateId].status == Promoted
    && s.candidates[data.candidateId].promotedContact == Some(p.contactId)
    && IsContactOf(s, data.companyId, p.contactId)
    && (preexisting.Some? ==> preexisting == Some(p.contactId)) && p.created == preexisting.None?
  }

  predicate GoalFits(goal: string) {
    Collapse(goal) != "" && |Collapse(goal)| <= 2000
  }

  function ApplyContact(rules: Rules, s: Crm, data: ContactApplyInput):
    Result<(Crm, ContactApplyResult), ContactApplyError>
  {
    if !data.confirmed then Err(ContactConfirmationRequired)
    else if !GoalFits(data.goal) then Err(InvalidGoal)
    else match Verify(rules, s, data)
      case Err(error) => Err(error)
      case Ok(_) =>
        var row := s.candidates[data.candidateId];
        match PreexistingContact(rules, s, data.companyId, row)
        case Err(error) => Err(error)
        case Ok(preexisting) =>
          match PromoteContact(rules, AfterReview(s, data.candidateId), data.companyId, data.candidateId)
          case Err(error) => Err(error)
          case Ok((promoted, promotion)) =>
            if !PromotionHolds(promoted, data, row.status, preexisting, promotion) then Err(InconsistentRows)
            else Materialize(promoted, data, row.status, promotion.contactId, preexisting.None?, SubjectOf(s, data))
  }

  // ----- The service ----------------------------------------------------------------------------------------------

  class CrmSession {
    var companies: map<nat, CompanyRow>
    var states: map<nat, StateRow>
    var candidates: map<nat, ContactCandidate>
    var contacts: map<nat, ContactRow>
    var nextContact: nat
    var leads: map<nat, Lead>
    var nextLead: nat
    var tasks: map<nat, Task>
    var nextTask: nat

    constructor (s: Crm)
      ensures View() == s
    {
      companies, states, candidates := s.companies, s.states, s.candidates;
      contacts, nextContact, leads, nextLead, tasks, nextTask := s.contacts, s.nextContact, s.leads, s.nextLead,
      s.tasks, s.nextTask;
    }

    function View(): Crm
      reads this
    {
      Crm(companies, states, candidates, contacts, nextContact, leads, nextLead, tasks, nextTask)
    }

    method Rollback(s: Crm)
      modifies this
      ensures View() == s
    {
      companies, states, candidates := s.companies, s.states, s.candidates;
      contacts, nextContact, leads, nextLead, tasks, nextTask := s.contacts, s.nextContact, s.leads, s.nextLead,
      s.tasks, s.nextTask;
    }
  }

  class AgentContactApplyService {
    const rules: Rules
    const session: CrmSession

    constructor (rules: Rules, session: CrmSession)
      ensures this.rules == rules && this.session == session
    {
      this.rules, this.session := rules, session;
    }

    /** One transaction: kept on success, rolled back on any error. */
    method Execute(data: ContactApplyInput) returns (r: Result<ContactApplyResult, ContactApplyError>)
      modifies session
      ensures match ApplyContact(rules, old(session.View()), data)
        case Err(error) => r == Err(error) && session.View() == old(session.View())
        case Ok((after, result)) => r == Ok(result) && session.View() == after
    {
      var begin := session.View();
      r := Apply(data);
      if r.Err? {
        session.Rollback(begin);
      }
    }

    method Apply(data: ContactApplyInput) returns (r: Result<ContactApplyResult, ContactApplyError>)
      modifies session
      ensures match ApplyContact(rules, old(session.View()), data)
        case Err(error) => r == Err(error)
        case Ok((after, result)) => r == Ok(result) && session.View() == after
    {
      if !data.confirmed {
        return Err(ContactConfirmationRequired);
      }
      if !GoalFits(data.goal) {
        return Err(InvalidGoal);
      }
      var verified := Verify(rules, session.View(), data);
      if verified.Err? {
        return Err(verified.error);
      }
      var row := session.candidates[data.candidateId];
      var x := SubjectOf(session.View(), data);
      var preexisting := PreexistingContact(rules, session.View(), data.companyId, row);
      if preexisting.Err? {
        return Err(preexisting.error);
      }
      if row.status == Discovered {
        session.candidates := session.candidates[data.candidateId := row.(status := Reviewed)];
      }
      assert session.View() == AfterReview(old(session.View()), data.candidateId);
      var promotion := Promote(data.companyId, data.candidateId);
      if promotion.Err? {
        return Err(promotion.error);
      }
      if !PromotionHolds(session.View(), data, row.status, preexisting.value, promotion.value) {
        return Err(InconsistentRows);
      }
      r := Finish(data, row.status, promotion.value.contactId, preexisting.value.None?, x);
    }

    method Promote(companyId: nat, candidateId: nat) returns (r: Result<ContactPromotion, ContactApplyError>)
      modifies session
      ensures match PromoteContact(rules, old(session.View()), companyId, candidateId)
        case Err(error) => r == Err(error)
        case Ok((after, promotion)) => r == Ok(promotion) && session.View() == after
    {
      if companyId !in session.companies || !OfCompany(session.View(), companyId, candidateId) {
        return Err(ContactNotFound);
      }
      var row := session.candidates[candidateId];
      if row.status == Promoted {
        return if row.promotedContact.Some? && row.promotedContact.value > 0
                  && IsContactOf(session.View(), companyId, row.promotedContact.value)
               then Ok(ContactPromotion(row.promotedContact.value, Promoted, false)) else Err(InconsistentRows);
      }
      if row.status != Reviewed {
        return Err(ContactNotEligible);
      }
      var person := rules.personOf(row.name, row.title, row.phone);
      var email := ResolveEmail(rules, row.email, row.normalizedEmail);
      if row.promotedContact.Some? || person.Invalid? || email.Invalid? {
        return Err(InconsistentRows);
      }
      var found: Option<nat> := None;
      if email.value.Some? {
        if |email.value.value| > 255 {
          return Err(InconsistentRows);
        }
        found := FindByEmail(rules, session.contacts, session.nextContact, companyId, email.value.value);
      }
      var contactId := if found.Some? then found.value else session.nextContact;
      if found.None? {
        session.contacts := session.contacts[contactId := ContactRow(companyId, person.value, email.value)];
        session.nextContact := contactId + 1;
      }
      if contactId == 0 || !IsContactOf(session.View(), companyId, contactId) {
        return Err(InconsistentRows);
      }
      row := row.(status := Promoted);
      row := row.(promotedContact := Some(contactId));
      session.candidates := session.candidates[candidateId := row];
      r := Ok(ContactPromotion(contactId, Reviewed, found.None?));
    }

    method Finish(data: ContactApplyInput, before: CandidateStatus, contactId: nat, contactCreated: bool, x: Subject)
      returns (r: Result<ContactApplyResult, ContactApplyError>)
      requires ContactText(x.companyName).Some? && ContactText(x.name).Some?
      modifies session
      ensures match Materialize(old(session.View()), data, before, contactId, contactCreated, x)
        case Err(error) => r == Err(error)
        case Ok((after, result)) => r == Ok(result) && session.View() == after
    {
      var lead := FindOrCreateLead(data.companyId, contactId);
      if lead.Err? {
        return Err(lead.error);
      }
      var (leadId, leadCreated) := lead.value;
      var task := FindOrCreateTask(leadId, ProposalsOf(x).taskTitle, ProposalsOf(x).taskDescription, LegacyOf(x));
      if task.Err? {
        return Err(task.error);
      }
      var (taskId, taskCreated, taskNormalized) := task.value;
      var result := Report(contactId, leadId, taskId, before, contactCreated, leadCreated, taskCreated, taskNormalized);
      r := if ValidInvariants(result) then Ok(result) else Err(InconsistentRows);
    }

    method FindOrCreateLead(companyId: nat, contactId: nat) returns (r: Result<(nat, bool), ContactApplyError>)
      modifies session
      ensures match MaterializeLead(old(session.View()), companyId, contactId)
        case Err(error) => r == Err(error)
        case Ok((after, id, created)) => r == Ok((id, created)) && session.View() == after
    {
      var existing := LeadsOf(session.leads, session.nextLead, contactId);
      if |existing| > 1 {
        return Err(ConflictingRows);
      }
      var created := |existing| == 0;
      var id := if created then session.nextLead else existing[0];
      if created {
        session.leads := session.leads[id := Lead(companyId, Some(contactId), "NEW", None, None)];
        session.nextLead := id + 1;
      }
      r := if id > 0 && id in session.leads
        && UsableLead(session.leads[id], companyId, contactId) then Ok((id, created))
           else Err(ConflictingRows);
    }

    /** A reused task with the legacy description has it overwritten in place before it is checked. */
    method FindOrCreateTask(leadId: nat, title: string, description: string, legacy: string)
      returns (r: Result<(nat, bool, bool), ContactApplyError>)
      modifies session
      ensures match MaterializeTask(old(session.View()), leadId, title, description, legacy)
        case Err(error) => r == Err(error)
        case Ok((after, id, created, normalized)) => r == Ok((id, created, normalized)) && session.View() == after
    {
      var existing := TasksOf(session.tasks, session.nextTask, leadId);
      if |existing| > 1 {
        return Err(ConflictingRows);
      }
      var created := |existing| == 0;
      var id := if created then session.nextTask else existing[0];
      if created {
        session.tasks := session.tasks[id := Task(leadId, title, Some(description), "TODO", None)];
        session.nextTask := id + 1;
      }
      if id == 0 || id !in session.tasks {
        return Err(ConflictingRows);
      }
      var normalized := false;
      if !created && UsableTask(session.tasks[id], leadId, title, legacy) {
        session.tasks := session.tasks[id := session.tasks[id].(description := Some(description))];
        normalized := true;
      }
      r := if UsableTask(session.tasks[id], leadId, title, description) then Ok((id, created, normalized))
           else Err(ConflictingRows);
    }
  }

  // ----- What an apply guarantees ---------------------------------------------------------------------------------

  /**
   The handoff is refused as stale exactly when the rows, though still within their bounds, no longer agree
   with the plan's.
   */
  lemma StaleExactlyWhenRowsChanged(rules: Rules, s: Crm, data: ContactApplyInput, planned: Subject)
    requires Injective(rules.hash) && Token(rules.hash, planned) == Valid(data.token) && ReadRows(s, data).Ok?
    ensures Verify(rules, s, data) == Err(StaleToken)
      <==> Bindable(SubjectOf(s, data)) && !Agree(planned, SubjectOf(s, data))
  {
    PayloadExactlyWhenBindable(SubjectOf(s, data));
    TokenAcceptedExactlyWhenUnchanged(rules.hash, planned, SubjectOf(s, data));
    TokenOf(rules.hash, SubjectOf(s, data));
  }

  lemma TokenOf(hash: Payload -> string, x: Subject)
    ensures Token(hash, x).Valid? <==> Bindable(x)
  {
    PayloadExactlyWhenBindable(x);
  }

  lemma {:induction false} LeadsBelow(leads: map<nat, Lead>, bound: nat, contactId: nat, id: nat, lead: Lead)
    requires bound <= id
    ensures LeadsOf(leads[id := lead], bound, contactId) == LeadsOf(leads, bound, contactId)
  {
    if bound != 0 {
      LeadsBelow(leads, bound - 1, contactId, id, lead);
    }
  }

  lemma {:induction false} TasksBelow(tasks: map<nat, Task>, bound: nat, leadId: nat, id: nat, task: Task)
    requires bound <= id || (id in tasks && tasks[id].leadId == task.leadId)
    ensures TasksOf(tasks[id := task], bound, leadId) == TasksOf(tasks, bound, leadId)
  {
    if bound != 0 {
      TasksBelow(tasks, bound - 1, leadId, id, task);
    }
  }

  lemma {:induction false} LeadsListed(leads: map<nat, Lead>, bound: nat, contactId: nat)
    ensures forall id :: id in LeadsOf(leads, bound, contactId) <==>
      id < bound && id in leads && leads[id].contactId == Some(contactId)
  {
    if bound != 0 {
      LeadsListed(leads, bound - 1, contactId);
    }
  }

  lemma {:induction false} TasksListed(tasks: map<nat, Task>, bound: nat, leadId: nat)
    ensures forall id :: id in TasksOf(tasks, bound, leadId) <==>
      id < bound && id in tasks && tasks[id].leadId == leadId
  {
    if bound != 0 {
      TasksListed(tasks, bound - 1, leadId);
    }
  }

  /** The contact has one lead, fit for use. */
  predicate OneLead(s: Crm, companyId: nat, contactId: nat, leadId: nat) {
    && LeadsOf(s.leads, s.nextLead, contactId) == [leadId]
    && leadId > 0 && leadId in s.leads && UsableLead(s.leads[leadId], companyId, contactId)
  }

  /** The lead has one task, fit for use, with the current description. */
  predicate OneTask(s: Crm, leadId: nat, taskId: nat, title: string, description: string) {
    && TasksOf(s.tasks, s.nextTask, leadId) == [taskId]
    && taskId > 0 && taskId in s.tasks && UsableTask(s.tasks[taskId], leadId, title, description)
  }

  lemma LeadIsTheOnlyOne(s: Crm, companyId: nat, contactId: nat)
    requires MaterializeLead(s, companyId, contactId).Ok?
    ensures var (after, leadId, created) := MaterializeLead(s, companyId, contactId).value;
      && OneLead(after, companyId, contactId, leadId) && after == s.(leads := after.leads, nextLead := after.nextLead)
      && (!created ==> after == s) && after.nextLead == s.nextLead + One(created)
  {
    var (after, leadId, created) := MaterializeLead(s, companyId, contactId).value;
    if created {
      LeadsBelow(s.leads, s.nextLead, contactId, s.nextLead, after.leads[s.nextLead]);
    }
  }

  lemma TaskIsTheOnlyOne(s: Crm, leadId: nat, title: string, description: string, legacy: string)
    requires MaterializeTask(s, leadId, title, description, legacy).Ok?
    ensures var (after, taskId, created, normalized) := MaterializeTask(s, leadId, title, description, legacy).value;
      && OneTask(after, leadId, taskId, title, description)
      && after == s.(tasks := after.tasks, nextTask := after.nextTask)
      && (!created && !normalized ==> after == s) && after.nextTask == s.nextTask + One(created)
      && !(created && normalized)
      && (normalized ==> taskId in s.tasks && s.tasks[taskId].description == Some(legacy))
  {
    var (after, taskId, created, normalized) := MaterializeTask(s, leadId, title, description, legacy).value;
    if created {
      TasksBelow(s.tasks, s.nextTask, leadId, s.nextTask, after.tasks[s.nextTask]);
    } else if normalized {
      TasksBelow(s.tasks, s.nextTask, leadId, taskId, after.tasks[taskId]);
    }
  }

  /** The row of a promoted candidate. */
  function PromotedRow(row: ContactCandidate, contactId: nat): ContactCandidate {
    row.(status := Promoted, promotedContact := Some(contactId))
  }

  lemma PromotionLinks(rules: Rules, s: Crm, companyId: nat, candidateId: nat)
    requires OfCompany(s, companyId, candidateId) && PromoteContact(rules, s, companyId, candidateId).Ok?
    ensures var (after, p) := PromoteContact(rules, s, companyId, candidateId).value;
      && p.contactId > 0 && IsContactOf(after, companyId, p.contactId)
      && after == s.(candidates := s.candidates[candidateId := PromotedRow(s.candidates[candidateId], p.contactId)],
                     contacts := after.contacts, nextContact := after.nextContact)
      && after.nextContact == s.nextContact + One(p.created) && (!p.created ==> after.contacts == s.contacts)
  {
    var row := s.candidates[candidateId];
    if row.status == Promoted {
      assert s.candidates == s.candidates[candidateId := PromotedRow(row, row.promotedContact.value)];
    }
  }

  lemma MaterializedRows(s: Crm, data: ContactApplyInput, before: CandidateStatus, contactId: nat, contactCreated: bool,
                         x: Subject)
    requires ContactText(x.companyName).Some? && ContactText(x.name).Some?
    requires Materialize(s, data, before, contactId, contactCreated, x).Ok?
    ensures var (after, r) := Materialize(s, data, before, contactId, contactCreated, x).value;
      && after == s.(leads := after.leads, nextLead := after.nextLead, tasks := after.tasks, nextTask := after.nextTask)
      && r.contactId == contactId
      && OneLead(after, data.companyId, contactId, r.leadId)
      && OneTask(after, r.leadId, r.taskId, ProposalsOf(x).taskTitle, ProposalsOf(x).taskDescription)
      && after.nextLead == s.nextLead + r.leadMutations && after.nextTask == s.nextTask + One(r.taskCreated)
  {
    LeadIsTheOnlyOne(s, data.companyId, contactId);
    var (withLead, leadId, _) := MaterializeLead(s, data.companyId, contactId).value;
    TaskIsTheOnlyOne(withLead, leadId, ProposalsOf(x).taskTitle, ProposalsOf(x).taskDescription, LegacyOf(x));
  }

  /** A successful apply verified the handoff, promoted the reviewed candidate and materialised its lead and task. */
  lemma ApplySteps(rules: Rules, s: Crm, data: ContactApplyInput)
    requires ApplyContact(rules, s, data).Ok?
    ensures data.confirmed && GoalFits(data.goal) && Verify(rules, s, data).Ok?
      && OfCompany(s, data.companyId, data.candidateId)
    ensures ContactText(SubjectOf(s, data).companyName).Some? && ContactText(SubjectOf(s, data).name).Some?
    ensures var promotion := PromoteContact(rules, AfterReview(s, data.candidateId), data.companyId, data.candidateId);
      && promotion.Ok?
      && var (promoted, p) := promotion.value;
         Materialize(promoted, data, s.candidates[data.candidateId].status, p.contactId, p.created, SubjectOf(s, data))
         == ApplyContact(rules, s, data)
  {
  }

  lemma PromotedAfterReview(rules: Rules, s: Crm, companyId: nat, candidateId: nat)
    requires OfCompany(s, companyId, candidateId)
      && PromoteContact(rules, AfterReview(s, candidateId), companyId, candidateId).Ok?
    ensures var (promoted, p) := PromoteContact(rules, AfterReview(s, candidateId), companyId, candidateId).value;
      && p.contactId > 0 && IsContactOf(promoted, companyId, p.contactId)
      && promoted == s.(candidates := s.candidates[candidateId := PromotedRow(s.candidates[candidateId], p.contactId)],
                        contacts := promoted.contacts, nextContact := promoted.nextContact)
      && promoted.nextContact == s.nextContact + One(p.created)
  {
    var reviewed := AfterReview(s, candidateId);
    PromotionLinks(rules, reviewed, companyId, candidateId);
    var p := PromoteContact(rules, reviewed, companyId, candidateId).value.1;
    assert reviewed.candidates[candidateId := PromotedRow(reviewed.candidates[candidateId], p.contactId)]
        == s.candidates[candidateId := PromotedRow(s.candidates[candidateId], p.contactId)];
  }

  /**
   What a successful apply leaves, table by table: the candidate promoted and linked, exactly one lead for the
   contact and one task for the lead, and as many new contacts, leads and tasks as the result counts.
   */
  lemma AppliedRows(rules: Rules, s: Crm, data: ContactApplyInput)
    requires ApplyContact(rules, s, data).Ok?
    ensures data.confirmed && GoalFits(data.goal) && Verify(rules, s, data).Ok?
      && OfCompany(s, data.companyId, data.candidateId)
    ensures ContactText(SubjectOf(s, data).companyName).Some? && ContactText(SubjectOf(s, data).name).Some?
    ensures var (after, r) := ApplyContact(rules, s, data).value;
      && after == s.(candidates := s.candidates[data.candidateId := PromotedRow(s.candidates[data.candidateId],
                                                                                r.contactId)],
                     contacts := after.contacts, nextContact := after.nextContact, leads := after.leads,
                     nextLead := after.nextLead, tasks := after.tasks, nextTask := after.nextTask)
      && r.contactId > 0 && IsContactOf(after, data.companyId, r.contactId)
      && OneLead(after, data.companyId, r.contactId, r.leadId)
      && OneTask(after, r.leadId, r.taskId, ProposalsOf(SubjectOf(s, data)).taskTitle,
                 ProposalsOf(SubjectOf(s, data)).taskDescription)
      && after.nextContact == s.nextContact + r.contactMutations && after.nextLead == s.nextLead + r.leadMutations
      && after.nextTask == s.nextTask + One(r.taskCreated)
  {
    ApplySteps(rules, s, data);
    PromotedAfterReview(rules, s, data.companyId, data.candidateId);
    var (promoted, p) := PromoteContact(rules, AfterReview(s, data.candidateId), data.companyId,
                                        data.candidateId).value;
    MaterializedRows(promoted, data, s.candidates[data.candidateId].status, p.contactId, p.created, SubjectOf(s, data));
    MaterializedCounts(promoted, data, s.candidates[data.candidateId].status, p.contactId, p.created,
                       SubjectOf(s, data));
  }

  /** Every result meets its invariants, and counts a contact exactly if one was created. */
  lemma MaterializedCounts(s: Crm, data: ContactApplyInput, before: CandidateStatus, contactId: nat,
                           contactCreated: bool, x: Subject)
    requires ContactText(x.companyName).Some? && ContactText(x.name).Some?
    requires Materialize(s, data, before, contactId, contactCreated, x).Ok?
    ensures var r := Materialize(s, data, before, contactId, contactCreated, x).value.1;
      ValidInvariants(r) && r.contactMutations == One(contactCreated) && r.before == before
  {
  }

  lemma VerifiedAgain(rules: Rules, s: Crm, after: Crm, data: ContactApplyInput, contactId: nat)
    requires Verify(rules, s, data).Ok? && contactId > 0
    requires after.companies == s.companies && after.states == s.states
    requires after.candidates
      == s.candidates[data.candidateId := PromotedRow(s.candidates[data.candidateId], contactId)]
    ensures Verify(rules, after, data).Ok? && SubjectOf(after, data) == SubjectOf(s, data)
  {
  }

  lemma LegacyOfDiffers(x: Subject)
    requires ContactText(x.companyName).Some? && ContactText(x.name).Some? && Collapse(x.goal) != ""
    ensures LegacyOf(x) != ProposalsOf(x).taskDescription
  {
    RequiredOfContactText(x.companyName.value, 255);
    RequiredOfContactText(x.name.value, 255);
    RequiredOfContactText(x.goal, 2000);
    if ContactText(x.title).Some? {
      RequiredOfContactText(x.title.value, 255);
    }
    LegacyDescriptionDiffers(ContactText(x.companyName).value, ContactText(x.name).value, ContactText(x.title),
                             Collapse(x.goal));
  }

  lemma FoundAgain(s: Crm, companyId: nat, contactId: nat, leadId: nat, taskId: nat, title: string, description: string,
                   legacy: string)
    requires OneLead(s, companyId, contactId, leadId) && OneTask(s, leadId, taskId, title, description)
      && legacy != description
    ensures MaterializeLead(s, companyId, contactId) == Ok((s, leadId, false))
    ensures MaterializeTask(s, leadId, title, description, legacy) == Ok((s, taskId, false, false))
  {
  }

  lemma MaterializedAgain(s: Crm, data: ContactApplyInput, contactId: nat, leadId: nat, taskId: nat, x: Subject)
    requires ContactText(x.companyName).Some? && ContactText(x.name).Some? && contactId > 0 && Collapse(x.goal) != ""
    requires OneLead(s, data.companyId, contactId, leadId)
    requires OneTask(s, leadId, taskId, ProposalsOf(x).taskTitle, ProposalsOf(x).taskDescription)
    ensures Materialize(s, data, Promoted, contactId, false, x)
      == Ok((s, Report(contactId, leadId, taskId, Promoted, false, false, false, false)))
  {
    LegacyOfDiffers(x);
    FoundAgain(s, data.companyId, contactId, leadId, taskId, ProposalsOf(x).taskTitle, ProposalsOf(x).taskDescription,
               LegacyOf(x));
  }

  /**
   Apply is idempotent: repeated with the same input after it succeeded, it returns the same contact, lead and
   task, reports everything reused and nothing mutated, and leaves the tables as they are. In particular the
   legacy description is rewritten at most once.
   */
  lemma ApplyIsIdempotent(rules: Rules, s: Crm, data: ContactApplyInput)
    requires ApplyContact(rules, s, data).Ok?
    ensures var (after, first) := ApplyContact(rules, s, data).value;
      ApplyContact(rules, after, data) == Ok((after, ContactApplyResult(
        first.contactId, first.leadId, first.taskId, Promoted, false, false,
        false, true, false, true, false, true, false, false, 0, 0, 0)))
  {
    AppliedRows(rules, s, data);
    var (after, first) := ApplyContact(rules, s, data).value;
    VerifiedAgain(rules, s, after, data, first.contactId);
    MaterializedAgain(after, data, first.contactId, first.leadId, first.taskId, SubjectOf(s, data));
    PromotedApplies(rules, after, data, first.contactId);
  }

  /** An apply of a promoted candidate is verification and then the search for its lead and task. */
  lemma PromotedApplies(rules: Rules, s: Crm, data: ContactApplyInput, contactId: nat)
    requires data.confirmed && GoalFits(data.goal) && Verify(rules, s, data).Ok?
    requires s.candidates[data.candidateId].status == Promoted
      && s.candidates[data.candidateId].promotedContact == Some(contactId)
    requires contactId > 0 && IsContactOf(s, data.companyId, contactId)
    ensures ApplyContact(rules, s, data) == Materialize(s, data, Promoted, contactId, false, SubjectOf(s, data))
  {
  }

  lemma ReportIsValid(contactId: nat, leadId: nat, taskId: nat, before: CandidateStatus, contactCreated: bool,
                      leadCreated: bool, taskCreated: bool, taskNormalized: bool)
    requires contactId > 0 && leadId > 0 && taskId > 0 && before != Rejected
    ensures ValidInvariants(Report(contactId, leadId, taskId, before, contactCreated, leadCreated, taskCreated,
                                   taskNormalized))
  {
  }

  lemma MaterializedIdsArePositive(s: Crm, companyId: nat, contactId: nat, title: string, description: string,
                                   legacy: string)
    ensures MaterializeLead(s, companyId, contactId).Ok? ==>
      var (withLead, leadId, _) := MaterializeLead(s, companyId, contactId).value;
      leadId > 0 && (MaterializeTask(withLead, leadId, title, description, legacy).Ok? ==>
        MaterializeTask(withLead, leadId, title, description, legacy).value.1 > 0)
    ensures MaterializeLead(s, companyId, contactId).Err? ==>
      MaterializeLead(s, companyId, contactId).error == ConflictingRows
    ensures MaterializeTask(s, companyId, title, description, legacy).Err? ==>
      MaterializeTask(s, companyId, title, description, legacy).error == ConflictingRows
  {
  }

  /**
   The only error left once a candidate is promoted is a conflict over its lead or task: the result is never
   refused.
   */
  lemma ResultsAreNeverRefused(s: Crm, data: ContactApplyInput, before: CandidateStatus, contactId: nat,
                               contactCreated: bool, x: Subject)
    requires ContactText(x.companyName).Some? && ContactText(x.name).Some? && contactId > 0 && before != Rejected
    ensures var outcome := Materialize(s, data, before, contactId, contactCreated, x);
      outcome.Ok? || outcome == Err(ConflictingRows)
  {
    var title, description, legacy := ProposalsOf(x).taskTitle, ProposalsOf(x).taskDescription, LegacyOf(x);
    MaterializedIdsArePositive(s, data.companyId, contactId, title, description, legacy);
    match MaterializeLead(s, data.companyId, contactId)
    case Err(_) =>
    case Ok((withLead, leadId, leadCreated)) =>
      MaterializedIdsArePositive(withLead, leadId, contactId, title, description, legacy);
      match MaterializeTask(withLead, leadId, title, description, legacy)
      case Err(_) =>
      case Ok((withTask, taskId, taskCreated, taskNormalized)) =>
        ReportIsValid(contactId, leadId, taskId, before, contactCreated, leadCreated, taskCreated, taskNormalized);
  }

  // ----- No other lead and no other task ----------------------------------------------------------------

  /** Ids are handed out in order: every lead and task has a positive one below the next, and tasks name such leads. */
  ghost predicate Keyed(s: Crm) {
    && s.nextLead > 0 && s.nextTask > 0
    && (forall id :: id in s.leads ==> 0 < id < s.nextLead)
    && (forall id :: id in s.tasks ==> 0 < id < s.nextTask && s.tasks[id].leadId < s.nextLead)
  }

  lemma LeadKeepsKeys(s: Crm, companyId: nat, contactId: nat)
    requires Keyed(s) && MaterializeLead(s, companyId, contactId).Ok?
    ensures var (after, leadId, _) := MaterializeLead(s, companyId, contactId).value;
      Keyed(after) && leadId < after.nextLead
  {
  }

  lemma TaskKeepsKeys(s: Crm, leadId: nat, title: string, description: string, legacy: string)
    requires Keyed(s) && leadId < s.nextLead && MaterializeTask(s, leadId, title, description, legacy).Ok?
    ensures Keyed(MaterializeTask(s, leadId, title, description, legacy).value.0)
  {
    TasksListed(s.tasks, s.nextTask, leadId);
  }

  lemma MaterializeKeepsKeys(s: Crm, data: ContactApplyInput, before: CandidateStatus, contactId: nat,
                             contactCreated: bool, x: Subject)
    requires ContactText(x.companyName).Some? && ContactText(x.name).Some?
    requires Keyed(s) && Materialize(s, data, before, contactId, contactCreated, x).Ok?
    ensures Keyed(Materialize(s, data, before, contactId, contactCreated, x).value.0)
  {
    LeadKeepsKeys(s, data.companyId, contactId);
    var (withLead, leadId, _) := MaterializeLead(s, data.companyId, contactId).value;
    TaskKeepsKeys(withLead, leadId, ProposalsOf(x).taskTitle, ProposalsOf(x).taskDescription, LegacyOf(x));
  }

  /** An apply keeps ids handed out in order. */
  lemma ApplyKeepsKeys(rules: Rules, s: Crm, data: ContactApplyInput)
    requires Keyed(s) && ApplyContact(rules, s, data).Ok?
    ensures Keyed(ApplyContact(rules, s, data).value.0)
  {
    ApplySteps(rules, s, data);
    PromotedAfterReview(rules, s, data.companyId, data.candidateId);
    var (promoted, p) := PromoteContact(rules, AfterReview(s, data.candidateId), data.companyId,
                                        data.candidateId).value;
    MaterializeKeepsKeys(promoted, data, s.candidates[data.candidateId].status, p.contactId, p.created,
                         SubjectOf(s, data));
  }

  /** After a successful apply the contact has one lead in all the tables, and that lead one task. */
  lemma NoOtherLeadOrTask(rules: Rules, s: Crm, data: ContactApplyInput)
    requires Keyed(s) && ApplyContact(rules, s, data).Ok?
    ensures var (after, r) := ApplyContact(rules, s, data).value;
      && Keyed(after)
      && (forall id :: id in after.leads && after.leads[id].contactId == Some(r.contactId) <==> id == r.leadId)
      && (forall id :: id in after.tasks && after.tasks[id].leadId == r.leadId <==> id == r.taskId)
  {
    ApplyKeepsKeys(rules, s, data);
    AppliedRows(rules, s, data);
    var (after, r) := ApplyContact(rules, s, data).value;
    OnlyRows(after, data.companyId, r.contactId, r.leadId, r.taskId, ProposalsOf(SubjectOf(s, data)).taskTitle,
             ProposalsOf(SubjectOf(s, data)).taskDescription);
  }

  lemma OnlyRows(s: Crm, companyId: nat, contactId: nat, leadId: nat, taskId: nat, title: string, description: string)
    requires Keyed(s) && OneLead(s, companyId, contactId, leadId) && OneTask(s, leadId, taskId, title, description)
    ensures forall id :: id in s.leads && s.leads[id].contactId == Some(contactId) <==> id == leadId
    ensures forall id :: id in s.tasks && s.tasks[id].leadId == leadId <==> id == taskId
  {
    LeadsListed(s.leads, s.nextLead, contactId);
    TasksListed(s.tasks, s.nextTask, leadId);
    assert forall id :: id in [leadId] <==> id == leadId;
    assert forall id :: id in [taskId] <==> id == taskId;
  }
}
