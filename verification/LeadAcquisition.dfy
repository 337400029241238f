/**
 The acquisition loop: plan a company, reach it, reach a contact or the company itself, draft, and count every
 way an attempt can end. The dependencies of each attempt are arbitrary functions.
 */
module LeadAcquisition {
  import opened Common
  import opened Text
  import opened Platform

  // ----- What the dependencies answer -------------------------------------------------------------------

  datatype PlanOutcome = PlanOutcome(
    runId: int, candidateCount: int, selected: Option<int>, discoveryCalls: int, decisionCalls: int,
    fingerprint: Option<string>, suppressed: bool, existingCompany: Option<int>)

  datatype PlanReply =
    | Planned(outcome: PlanOutcome)
    | ProviderStop(discoveryCalls: int, decisionCalls: int, runs: int, candidates: int)
    | PlanFailed

  datatype CompanyReply = Applied(companyId: int, created: bool, reused: bool) | CompanyUnavailable | CompanyFailed

  datatype ContactPlan = ContactPlan(
    candidateId: Option<int>, email: Option<string>, token: Option<string>, discoveryCalls: int, decisionCalls: int)

  datatype ContactPlanReply =
    | ContactPlanned(plan: ContactPlan) | ContactPlanUnavailable(discoveryCalls: int,
                                                                 decisionCalls: int) | ContactPlanFailed

  datatype Contact = Contact(
    contactId: int, leadId: int, taskId: int, contactCreated: bool, contactReused: bool,
    leadCreated: bool, leadReused: bool, taskCreated: bool, taskReused: bool)

  datatype ContactReply = ContactApplied(contact: Contact) | ContactUnavailable | ContactFailed

  datatype EmailReply = Email(value: Option<string>) | EmailFailed

  datatype Completion = Completion(
    leadId: int, taskId: int, leadCreated: bool, leadReused: bool, taskCreated: bool, taskReused: bool)

  datatype CompletionReply = CompanyCompleted(completion: Completion) | CompletionFailed

  datatype Draft = Draft(
    draftId: int, contactId: Option<int>, leadId: int, email: string, isDraft: bool, created: bool, reused: bool)

  datatype DraftReply = Drafted(draft: Draft) | DraftUnavailable | DraftFailed

  /** The dependencies during one attempt; `enrich` is optional and answers whether it succeeded. */
  datatype Dependencies = Dependencies(
    plan: (nat, set<string>) -> PlanReply,
    alreadyComplete: int -> bool,
    apply: (int, int) -> CompanyReply,
    contactPlan: int -> ContactPlanReply,
    contactApply: (int, int, string) -> ContactReply,
    email: int -> EmailReply,
    enrich: Option<int -> bool>,
    emailAfterEnrichment: int -> EmailReply,
    complete: (int, string) -> CompletionReply,
    generate: (int, Option<int>, int, int) -> DraftReply)

  datatype FailureStage =
    | CompanyDiscovery | CompanyApplication | ContactDiscovery | ContactApplication | CompanyEnrichment
    | OutreachCompletion | DraftGeneration | ResultSerialization | InconsistentOutcome

  /** An address without blanks, with one `@`, and a domain with an inner dot, case-folded. */
  function UsableEmail(t: Tables, value: Option<string>): Option<string> {
    if value.None? || exists i :: 0 <= i < |value.value| && IsSpace(value.value[i]) then None
    else
      var normalized := t.casefold(value.value);
      var at := IndexOfAt(normalized);
      if at == |normalized| || '@' in normalized[at + 1..] then None
      else
        var domain := normalized[at + 1..];
        if at == 0 || domain == "" || '.' !in domain || domain[0] == '.' || domain[|domain| - 1] == '.' then None
        else Some(normalized)
  }

  function IndexOfAt(s: string): (i: nat)
    ensures i <= |s| && (i < |s| ==> s[i] == '@')
  {
    if |s| == 0 || s[0] == '@' then 0 else 1 + IndexOfAt(s[1..])
  }

  /** The check applied to every address, as a value: the loop only passes addresses through it. */
  function Usable(t: Tables): Option<string> -> Option<string> {
    value => UsableEmail(t, value)
  }

  // ----- The counters --------------------------------------------------------------------------------------

  /** The ways an attempt can end without a completion, and the drafts asked for. */
  datatype Exits = Exits(
    duplicatesSkipped: nat, noSelection: nat, noContact: nat, noEmail: nat,
    draftCalls: nat, draftFailures: nat, draftsCreated: nat, draftsReused: nat)

  /** The rows created and reused along the way. */
  datatype Made = Made(
    companiesCreated: nat, companiesReused: nat, contactsCreated: nat, contactsReused: nat,
    leadsCreated: nat, leadsReused: nat, tasksCreated: nat, tasksReused: nat)

  /** What the dependencies say they spent. */
  datatype Spent = Spent(
    discoveryRuns: int, candidates: int, companyDiscoveryCalls: int, companyDecisionCalls: int,
    contactDiscoveryCalls: int, contactDecisionCalls: int)

  /** The completions and their ids, in order. */
  datatype Completed = Completed(
    count: nat, personScoped: nat, companyScoped: nat,
    companyIds: seq<int>, contactIds: seq<int>, leadIds: seq<int>, taskIds: seq<int>, draftIds: seq<int>)

  datatype Tally = Tally(
    attempts: nat, cursor: nat, fingerprints: set<string>, exits: Exits, made: Made, spent: Spent, completed: Completed)

  const EMPTY := Tally(0, 0, {}, Exits(0, 0, 0, 0, 0, 0, 0, 0), Made(0, 0, 0, 0, 0, 0, 0, 0), Spent(0, 0, 0, 0, 0, 0),
                       Completed(0, 0, 0, [], [], [], [], []))

  function Skip(e: Exits): Exits {
    e.(duplicatesSkipped := e.duplicatesSkipped + 1)
  }

  function CountCompany(m: Made, created: bool, reused: bool): Made {
    m.(companiesCreated := m.companiesCreated + One(created), companiesReused := m.companiesReused + One(reused))
  }

  function CountOutreach(m: Made, leadCreated: bool, leadReused: bool, taskCreated: bool, taskReused: bool): Made {
    m.(leadsCreated := m.leadsCreated + One(leadCreated), leadsReused := m.leadsReused + One(leadReused),
       tasksCreated := m.tasksCreated + One(taskCreated), tasksReused := m.tasksReused + One(taskReused))
  }

  function CountContact(m: Made, c: Contact): Made {
    CountOutreach(m.(contactsCreated := m.contactsCreated + One(c.contactCreated),
                     contactsReused := m.contactsReused + One(c.contactReused)),
                  c.leadCreated, c.leadReused, c.taskCreated, c.taskReused)
  }

  function CountContactPlan(s: Spent, discovery: int, decision: int): Spent {
    s.(contactDiscoveryCalls := s.contactDiscoveryCalls + discovery,
       contactDecisionCalls := s.contactDecisionCalls + decision)
  }

  function CountCompanyPlan(s: Spent, runs: int, candidates: int, discovery: int, decision: int): Spent {
    s.(discoveryRuns := s.discoveryRuns + runs, candidates := s.candidates + candidates,
       companyDiscoveryCalls := s.companyDiscoveryCalls + discovery,
       companyDecisionCalls := s.companyDecisionCalls + decision)
  }

  function AddCompletion(c: Completed, companyId: int, contactId: Option<int>, leadId: int, taskId: int, draftId: int):
    Completed
  {
    Completed(c.count + 1, c.personScoped + One(contactId.Some?), c.companyScoped + One(contactId.None?),
              c.companyIds + [companyId], if contactId.Some? then c.contactIds + [contactId.value] else c.contactIds,
              c.leadIds + [leadId], c.taskIds + [taskId], c.draftIds + [draftId])
  }

  /** How an attempt leaves the counters: the loop goes on, stops at the provider, or the run raises. */
  datatype Turn = Go(tally: Tally) | Halt(tally: Tally) | Fail(stage: FailureStage)

  // ----- One attempt, stage by stage ------------------------------------------------------------------------

  /** Where an attempt stands: what it does next, and with what. */
  datatype Stage =
    | Planning
    | Following(outcome: PlanOutcome)
    | UsingCompany(companyId: int, created: bool, reused: bool)
    | UsingContact(companyId: int, plan: ContactPlan)
    | UsingAddress(companyId: int)
    | Drafting(companyId: int, contactId: Option<int>, leadId: int, taskId: int, email: string)

  function Rank(stage: Stage): nat {
    match stage
    case Planning => 5
    case Following(_) => 4
    case UsingCompany(_, _, _) => 3
    case UsingContact(_, _) => 2
    case UsingAddress(_) => 1
    case Drafting(_, _, _, _, _) => 0
  }

  datatype Move = Ends(turn: Turn) | Moves(tally: Tally, next: Stage)

  function Plan(d: Dependencies, x: Tally): Move {
    var y := x.(attempts := x.attempts + 1);
    match d.plan(y.cursor, y.fingerprints)
    case PlanFailed => Ends(Fail(CompanyDiscovery))
    case ProviderStop(discovery, decision, runs, candidates) =>
      Ends(Halt(y.(spent := CountCompanyPlan(y.spent, runs, candidates, discovery, decision))))
    case Planned(o) =>
      Moves(y.(cursor := y.cursor + 1,
               spent := CountCompanyPlan(y.spent, 1, o.candidateCount, o.discoveryCalls, o.decisionCalls),
               fingerprints := if o.fingerprint.Some? then y.fingerprints + {o.fingerprint.value} else y.fingerprints),
            Following(o))
  }

  function FollowPlan(d: Dependencies, x: Tally, o: PlanOutcome): Move {
    if o.suppressed then Ends(Go(x.(exits := Skip(x.exits))))
    else if o.selected.None? then Ends(Go(x.(exits := x.exits.(noSelection := x.exits.noSelection + 1))))
    else if o.existingCompany.Some? then
      if d.alreadyComplete(o.existingCompany.value) then
        Ends(Go(x.(exits := Skip(x.exits.(draftsReused := x.exits.draftsReused + 1)))))
      else Moves(x, UsingCompany(o.existingCompany.value, false, true))
    else match d.apply(o.runId, o.selected.value)
      case CompanyFailed => Ends(Fail(CompanyApplication))
      case CompanyUnavailable => Ends(Go(x.(exits := x.exits.(noSelection := x.exits.noSelection + 1))))
      case Applied(companyId, created, reused) => Moves(x, UsingCompany(companyId, created, reused))
  }

  function UseCompany(d: Dependencies, x: Tally, companyId: int, created: bool, reused: bool): Move {
    if created == reused then Ends(Fail(InconsistentOutcome))
    else
      var y := x.(made := CountCompany(x.made, created, reused));
      match d.contactPlan(companyId)
      case ContactPlanFailed => Ends(Fail(ContactDiscovery))
      case ContactPlanUnavailable(discovery, decision) =>
        Moves(y.(spent := CountContactPlan(y.spent, discovery, decision)),
              UsingContact(companyId, ContactPlan(None, None, None, 0, 0)))
      case ContactPlanned(plan) =>
        Moves(y.(spent := CountContactPlan(y.spent, plan.discoveryCalls, plan.decisionCalls)),
              UsingContact(companyId, plan))
  }

  function NoContact(x: Tally, companyId: int): Move {
    Moves(x.(exits := x.exits.(noContact := x.exits.noContact + 1)), UsingAddress(companyId))
  }

  function UseContact(usable: Option<string> -> Option<string>, d: Dependencies, x: Tally, companyId: int,
                      plan: ContactPlan): Move
  {
    if plan.candidateId.None? || plan.token.None? then NoContact(x, companyId)
    else match d.contactApply(companyId, plan.candidateId.value, plan.token.value)
      case ContactFailed => Ends(Fail(ContactApplication))
      case ContactUnavailable => NoContact(x, companyId)
      case ContactApplied(c) =>
        if c.contactCreated == c.contactReused || c.leadCreated == c.leadReused || c.taskCreated == c.taskReused then
          Ends(Fail(InconsistentOutcome))
        else
          var y := x.(made := CountContact(x.made, c));
          match usable(plan.email)
          case Some(email) => Moves(y, Drafting(companyId, Some(c.contactId), c.leadId, c.taskId, email))
          case None => Moves(y, UsingAddress(companyId))
  }

  /** The usable address of the company, looked up again after an enrichment when there was none. */
  function CompanyEmail(usable: Option<string> -> Option<string>, d: Dependencies, companyId: int):
    Result<Option<string>, FailureStage>
  {
    match d.email(companyId)
    case EmailFailed => Err(CompanyEnrichment)
    case Email(value) =>
      var first := usable(value);
      if first.Some? || d.enrich.None? then Ok(first)
      else if !d.enrich.value(companyId) then Err(CompanyEnrichment)
      else match d.emailAfterEnrichment(companyId)
        case EmailFailed => Err(CompanyEnrichment)
        case Email(again) => Ok(usable(again))
  }

  function UseAddress(usable: Option<string> -> Option<string>, d: Dependencies, x: Tally, companyId: int): Move {
    match CompanyEmail(usable, d, companyId)
    case Err(stage) => Ends(Fail(stage))
    case Ok(None) => Ends(Go(x.(exits := x.exits.(noEmail := x.exits.noEmail + 1))))
    case Ok(Some(email)) =>
      match d.complete(companyId, email)
      case CompletionFailed => Ends(Fail(OutreachCompletion))
      case CompanyCompleted(c) =>
        if c.leadCreated == c.leadReused || c.taskCreated == c.taskReused then Ends(Fail(InconsistentOutcome))
        else
          Moves(x.(made := CountOutreach(x.made, c.leadCreated, c.leadReused, c.taskCreated, c.taskReused)),
                Drafting(companyId, None, c.leadId, c.taskId, email))
  }

  function CompleteDraft(usable: Option<string> -> Option<string>, d: Dependencies, x: Tally, companyId: int,
                         contactId: Option<int>, leadId: int, taskId: int, expected: string): Turn
  {
    var called := x.exits.(draftCalls := x.exits.draftCalls + 1);
    match d.generate(companyId, contactId, leadId, taskId)
    case DraftFailed => Fail(DraftGeneration)
    case DraftUnavailable => Go(x.(exits := called.(draftFailures := called.draftFailures + 1)))
    case Drafted(draft) =>
      if !draft.isDraft || draft.contactId != contactId || draft.leadId != leadId
        || usable(Some(draft.email)) != Some(expected) then
        Go(x.(exits := called.(draftFailures := called.draftFailures + 1)))
      else if draft.created == draft.reused then Fail(InconsistentOutcome)
      else if draft.reused then Go(x.(exits := Skip(called.(draftsReused := called.draftsReused + 1))))
      else
        Go(x.(exits := called.(draftsCreated := called.draftsCreated + 1),
              completed := AddCompletion(x.completed, companyId, contactId, leadId, taskId, draft.draftId)))
  }

  function Advance(usable: Option<string> -> Option<string>, d: Dependencies, x: Tally, stage: Stage): (move: Move)
    ensures move.Moves? ==> Rank(move.next) < Rank(stage)
  {
    match stage
    case Planning => Plan(d, x)
    case Following(o) => FollowPlan(d, x, o)
    case UsingCompany(companyId, created, reused) => UseCompany(d, x, companyId, created, reused)
    case UsingContact(companyId, plan) => UseContact(usable, d, x, companyId, plan)
    case UsingAddress(companyId) => UseAddress(usable, d, x, companyId)
    case Drafting(companyId, contactId, leadId, taskId, email) =>
      Ends(CompleteDraft(usable, d, x, companyId, contactId, leadId, taskId, email))
  }

  /** The rest of an attempt from a stage on. */
  function AttemptFrom(usable: Option<string> -> Option<string>, d: Dependencies, x: Tally, stage: Stage): Turn
    decreases Rank(stage)
  {
    match Advance(usable, d, x, stage)
    case Ends(turn) => turn
    case Moves(y, next) => AttemptFrom(usable, d, y, next)
  }

  // ----- The loop --------------------------------------------------------------------------------------------

  function Budget(limit: nat): nat {
    var wanted := if limit * 5 < 10 then 10 else limit * 5;
    if wanted > 100 then 100 else wanted
  }

  /** The attempts of a run; `env(i)` are the dependencies of attempt i. */
  function Attempts(usable: Option<string> -> Option<string>, env: nat -> Dependencies): (nat, Tally) -> Turn {
    (i: nat, x: Tally) => AttemptFrom(usable, env(i), x, Planning)
  }

  predicate Open(turn: Turn, limit: nat) {
    turn.Go? && turn.tally.completed.count < limit
  }

  /** The counters after at most k attempts: none is made once the run stopped or the limit is reached. */
  function Rounds(attempt: (nat, Tally) -> Turn, limit: nat, k: nat): Turn {
    if k == 0 then Go(EMPTY)
    else
      var before := Rounds(attempt, limit, k - 1);
      if Open(before, limit) then attempt(k - 1, before.tally) else before
  }

  datatype Status = Complete | PartialBudgetExhausted | PartialProviderStop

  datatype ExportStatus = NotRequested | ExportSucceeded | ExportFailed

  datatype AcquisitionResult = AcquisitionResult(
    limit: nat, budget: nat, tally: Tally, budgetExhausted: bool, status: Status,
    exportFile: Option<string>, exportStatus: ExportStatus)

  predicate Distinct(ids: seq<int>) {
    forall i, j :: 0 <= i < j < |ids| ==> ids[i] != ids[j]
  }

  predicate ValidIds(ids: seq<int>) {
    (forall i :: 0 <= i < |ids| ==> ids[i] > 0) && Distinct(ids)
  }

  predicate ValidSpent(x: Spent) {
    && x.discoveryRuns >= 0 && x.candidates >= 0
    && x.companyDiscoveryCalls >= 0 && x.companyDecisionCalls >= 0
    && x.contactDiscoveryCalls >= 0 && x.contactDecisionCalls >= 0
  }

  predicate ValidCompleted(c: Completed) {
    && ValidIds(c.companyIds) && ValidIds(c.contactIds) && ValidIds(c.leadIds) && ValidIds(c.taskIds)
    && ValidIds(c.draftIds)
  }

  /** The id lists are as long as the counts say. */
  predicate CountsMatch(c: Completed) {
    && c.count == c.personScoped + c.companyScoped && |c.contactIds| == c.personScoped
    && |c.companyIds| == |c.leadIds| == |c.taskIds| == |c.draftIds| == c.count
  }

  /** The alignment rules of the acquisition result. */
  predicate ValidAlignment(r: AcquisitionResult) {
    var done := r.tally.completed.count;
    && ValidSpent(r.tally.spent)
    && done <= r.limit && r.tally.attempts <= r.budget
    && (r.budgetExhausted ==> r.tally.attempts == r.budget)
    && CountsMatch(r.tally.completed) && ValidCompleted(r.tally.completed)
    && (match r.status
        case Complete => done == r.limit && !r.budgetExhausted
        case PartialBudgetExhausted => r.budgetExhausted && done < r.limit
        case PartialProviderStop => done < r.limit && !r.budgetExhausted)
    && (r.exportFile.None? <==> r.exportStatus == NotRequested)
  }

  /** The export, asked for after the loop: the file it reports, or none if it raised. */
  datatype ExportReply = Exported(file: string) | ExportRaised

  function Summarise(limit: nat, requestedFile: Option<string>, exported: ExportReply, x: Tally, stopped: bool):
    AcquisitionResult
  {
    var budget := Budget(limit);
    AcquisitionResult(
      limit, budget, x, x.completed.count < limit && x.attempts == budget,
      if x.completed.count == limit then Complete else if stopped then PartialProviderStop else PartialBudgetExhausted,
      if requestedFile.None? then None else if exported.Exported? then Some(exported.file) else requestedFile,
      if requestedFile.None? then NotRequested else if exported.Exported? then ExportSucceeded else ExportFailed)
  }

  /** The result of a run that did not raise, unless its own rules refuse it. */
  function ResultOf(limit: nat, requestedFile: Option<string>, exported: ExportReply, x: Tally, stopped: bool):
    Result<AcquisitionResult, FailureStage>
  {
    var result := Summarise(limit, requestedFile, exported, x, stopped);
    if ValidAlignment(result) then Ok(result) else Err(ResultSerialization)
  }

  function Conclude(limit: nat, requestedFile: Option<string>, exported: ExportReply, end: Turn):
    Result<AcquisitionResult, FailureStage>
  {
    match end
    case Fail(stage) => Err(stage)
    case Go(x) => ResultOf(limit, requestedFile, exported, x, false)
    case Halt(x) => ResultOf(limit, requestedFile, exported, x, true)
  }

  lemma ConcludeStopped(limit: nat, requestedFile: Option<string>, exported: ExportReply, end: Turn, x: Tally,
                        stopped: bool)
    requires TookOrHalted(None, stopped, x, end)
    ensures Conclude(limit, requestedFile, exported, end) == ResultOf(limit, requestedFile, exported, x, stopped)
  {
  }

  lemma NextRound(attempt: (nat, Tally) -> Turn, limit: nat, k: nat, x: Tally)
    requires Rounds(attempt, limit, k) == Go(x) && x.completed.count < limit
    ensures Rounds(attempt, limit, k + 1) == attempt(k, x)
  {
  }

  lemma {:induction false} RoundsSettle(attempt: (nat, Tally) -> Turn, limit: nat, i: nat, k: nat)
    requires i <= k && !Open(Rounds(attempt, limit, i), limit)
    ensures Rounds(attempt, limit, k) == Rounds(attempt, limit, i)
    decreases k
  {
    if i < k {
      RoundsSettle(attempt, limit, i, k - 1);
    }
  }

  // ----- The service -----------------------------------------------------------------------------------------

  /** The counters of a run, updated in place. */
  class State {
    var attempts: nat
    var cursor: nat
    var fingerprints: set<string>
    var exits: Exits
    var made: Made
    var spent: Spent
    var completed: Completed

    constructor ()
      ensures View() == EMPTY
    {
      attempts, cursor, fingerprints := 0, 0, {};
      exits, made, spent, completed := EMPTY.exits, EMPTY.made, EMPTY.spent, EMPTY.completed;
    }

    function View(): Tally
      reads this
    {
      Tally(attempts, cursor, fingerprints, exits, made, spent, completed)
    }
  }

  /** What a step of the service leaves, against the turn it should have taken. */
  predicate Took(failure: Option<FailureStage>, x: Tally, turn: Turn) {
    match turn
    case Fail(stage) => failure == Some(stage)
    case Go(y) => failure.None? && x == y
    case Halt(_) => false
  }

  predicate TookOrHalted(failure: Option<FailureStage>, stopped: bool, x: Tally, turn: Turn) {
    match turn
    case Halt(y) => failure.None? && stopped && x == y
    case _ => !stopped && Took(failure, x, turn)
  }

  class LeadAcquisitionService {
    const usable: Option<string> -> Option<string>
    const env: nat -> Dependencies

    constructor (tables: Tables, env: nat -> Dependencies)
      ensures usable == Usable(tables) && this.env == env
    {
      this.usable, this.env := Usable(tables), env;
    }

    method Acquire(limit: nat, exportFile: Option<string>, exported: ExportReply)
      returns (r: Result<AcquisitionResult, FailureStage>)
      ensures r == Conclude(limit, exportFile, exported, Rounds(Attempts(usable, env), limit, Budget(limit)))
    {
      var state := new State();
      var failure, stopped := Loop(Attempts(usable, env), limit, state);
      if failure.Some? {
        return Err(failure.value);
      }
      ConcludeStopped(limit, exportFile, exported, Rounds(Attempts(usable, env), limit, Budget(limit)), state.View(),
                      stopped);
      r := ResultOf(limit, exportFile, exported, state.View(), stopped);
    }

    /** Attempts until the limit or the budget is reached, the provider stops the run or an attempt raises. */
    method Loop(ghost attempt: (nat, Tally) -> Turn, limit: nat, state: State)
      returns (failure: Option<FailureStage>, stopped: bool)
      requires attempt == Attempts(usable, env) && state.View() == EMPTY
      modifies state
      ensures TookOrHalted(failure, stopped, state.View(), Rounds(attempt, limit, Budget(limit)))
    {
      var budget := Budget(limit);
      failure, stopped := None, false;
      while state.completed.count < limit && state.attempts < budget && !stopped
        invariant state.attempts <= budget && failure.None?
        invariant TookOrHalted(failure, stopped, state.View(), Rounds(attempt, limit, state.attempts))
        decreases budget - state.attempts, !stopped
      {
        ghost var done := state.attempts;
        NextRound(attempt, limit, done, state.View());
        failure, stopped := MakeAttempt(attempt, state.attempts, state);
        if failure.Some? {
          RoundsSettle(attempt, limit, done + 1, budget);
          return;
        }
      }
      if !Open(Rounds(attempt, limit, state.attempts), limit) {
        RoundsSettle(attempt, limit, state.attempts, budget);
      }
    }

    method MakeAttempt(ghost attempt: (nat, Tally) -> Turn, i: nat, state: State)
      returns (failure: Option<FailureStage>, stopped: bool)
      requires attempt == Attempts(usable, env)
      modifies state
      ensures TookOrHalted(failure, stopped, state.View(), attempt(i, old(state.View())))
      ensures failure.None? ==> state.attempts == old(state.attempts) + 1
    {
      var d := env(i);
      stopped := false;
      ghost var x := state.View();
      state.attempts := state.attempts + 1;
      match d.plan(state.cursor, state.fingerprints)
      case PlanFailed =>
        assert Plan(d, x) == Ends(Fail(CompanyDiscovery));
        failure := Some(CompanyDiscovery);
      case ProviderStop(discovery, decision, runs, candidates) =>
        state.spent := CountCompanyPlan(state.spent, runs, candidates, discovery, decision);
        assert Plan(d, x) == Ends(Halt(state.View()));
        failure, stopped := None, true;
      case Planned(o) =>
        state.cursor := state.cursor + 1;
        state.spent := CountCompanyPlan(state.spent, 1, o.candidateCount, o.discoveryCalls, o.decisionCalls);
        if o.fingerprint.Some? {
          state.fingerprints := state.fingerprints + {o.fingerprint.value};
        }
        assert Plan(d, x) == Moves(state.View(), Following(o));
        failure := AfterPlan(d, state, o);
    }

    method AfterPlan(d: Dependencies, state: State, o: PlanOutcome) returns (failure: Option<FailureStage>)
      modifies state
      ensures Took(failure, state.View(), AttemptFrom(usable, d, old(state.View()), Following(o)))
      ensures state.attempts == old(state.attempts)
    {
      if o.suppressed {
        state.exits := state.exits.(duplicatesSkipped := state.exits.duplicatesSkipped + 1);
        return None;
      }
      if o.selected.None? {
        state.exits := state.exits.(noSelection := state.exits.noSelection + 1);
        return None;
      }
      if o.existingCompany.Some? {
        if d.alreadyComplete(o.existingCompany.value) {
          state.exits := state.exits.(draftsReused := state.exits.draftsReused + 1);
          state.exits := state.exits.(duplicatesSkipped := state.exits.duplicatesSkipped + 1);
          return None;
        }
        failure := AfterCompany(d, state, o.existingCompany.value, false, true);
        return;
      }
      match d.apply(o.runId, o.selected.value)
      case CompanyFailed => failure := Some(CompanyApplication);
      case CompanyUnavailable =>
        state.exits := state.exits.(noSelection := state.exits.noSelection + 1);
        failure := None;
      case Applied(companyId, created, reused) => failure := AfterCompany(d, state, companyId, created, reused);
    }

    method AfterCompany(d: Dependencies, state: State, companyId: int, created: bool, reused: bool)
      returns (failure: Option<FailureStage>)
      modifies state
      ensures Took(failure, state.View(),
                   AttemptFrom(usable, d, old(state.View()), UsingCompany(companyId, created, reused)))
      ensures state.attempts == old(state.attempts)
    {
      if created == reused {
        return Some(InconsistentOutcome);
      }
      state.made := CountCompany(state.made, created, reused);
      var plan := ContactPlan(None, None, None, 0, 0);
      match d.contactPlan(companyId) {
        case ContactPlanFailed => return Some(ContactDiscovery);
        case ContactPlanUnavailable(discovery, decision) =>
          state.spent := CountContactPlan(state.spent, discovery, decision);
        case ContactPlanned(planned) =>
          state.spent := CountContactPlan(state.spent, planned.discoveryCalls, planned.decisionCalls);
          plan := planned;
      }
      failure := AfterContactPlan(d, state, companyId, plan);
    }

    method AfterContactPlan(d: Dependencies, state: State, companyId: int, plan: ContactPlan)
      returns (failure: Option<FailureStage>)
      modifies state
      ensures Took(failure, state.View(), AttemptFrom(usable, d, old(state.View()), UsingContact(companyId, plan)))
      ensures state.attempts == old(state.attempts)
    {
      var selectedEmail := usable(plan.email);
      var contact: Option<Contact> := None;
      if plan.candidateId.Some? && plan.token.Some? {
        match d.contactApply(companyId, plan.candidateId.value, plan.token.value) {
          case ContactFailed => return Some(ContactApplication);
          case ContactUnavailable =>
          case ContactApplied(applied) => contact := Some(applied);
        }
      }
      if contact.Some? {
        var c := contact.value;
        if c.contactCreated == c.contactReused || c.leadCreated == c.leadReused || c.taskCreated == c.taskReused {
          return Some(InconsistentOutcome);
        }
        state.made := CountContact(state.made, c);
        if selectedEmail.Some? {
          failure := FinishDraft(d, state, companyId, Some(c.contactId), c.leadId, c.taskId, selectedEmail.value);
          return;
        }
      } else {
        state.exits := state.exits.(noContact := state.exits.noContact + 1);
      }
      failure := TryCompanyAddress(d, state, companyId);
    }

    method TryCompanyAddress(d: Dependencies, state: State, companyId: int) returns (failure: Option<FailureStage>)
      modifies state
      ensures Took(failure, state.View(), AttemptFrom(usable, d, old(state.View()), UsingAddress(companyId)))
      ensures state.attempts == old(state.attempts)
    {
      var found := CompanyEmail(usable, d, companyId);
      if found.Err? {
        return Some(found.error);
      }
      if found.value.None? {
        state.exits := state.exits.(noEmail := state.exits.noEmail + 1);
        return None;
      }
      match d.complete(companyId, found.value.value)
      case CompletionFailed => failure := Some(OutreachCompletion);
      case CompanyCompleted(c) =>
        if c.leadCreated == c.leadReused || c.taskCreated == c.taskReused {
          return Some(InconsistentOutcome);
        }
        state.made := CountOutreach(state.made, c.leadCreated, c.leadReused, c.taskCreated, c.taskReused);
        failure := FinishDraft(d, state, companyId, None, c.leadId, c.taskId, found.value.value);
    }

    method FinishDraft(d: Dependencies, state: State, companyId: int, contactId: Option<int>, leadId: int, taskId: int,
                       expected: string) returns (failure: Option<FailureStage>)
      modifies state
      ensures Took(failure, state.View(),
                   AttemptFrom(usable, d, old(state.View()), Drafting(companyId, contactId, leadId, taskId, expected)))
      ensures state.attempts == old(state.attempts)
    {
      failure := None;
      state.exits := state.exits.(draftCalls := state.exits.draftCalls + 1);
      match d.generate(companyId, contactId, leadId, taskId)
      case DraftFailed => failure := Some(DraftGeneration);
      case DraftUnavailable => state.exits := state.exits.(draftFailures := state.exits.draftFailures + 1);
      case Drafted(draft) =>
        if !draft.isDraft || draft.contactId != contactId || draft.leadId != leadId
          || usable(Some(draft.email)) != Some(expected) {
          state.exits := state.exits.(draftFailures := state.exits.draftFailures + 1);
          return;
        }
        if draft.created == draft.reused {
          return Some(InconsistentOutcome);
        }
        state.exits := state.exits.(draftsCreated := state.exits.draftsCreated + One(draft.created),
                                    draftsReused := state.exits.draftsReused + One(draft.reused));
        if draft.reused {
          state.exits := state.exits.(duplicatesSkipped := state.exits.duplicatesSkipped + 1);
          return;
        }
        state.completed := AddCompletion(state.completed, companyId, contactId, leadId, taskId, draft.draftId);
    }
  }
}
