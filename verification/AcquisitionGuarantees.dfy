/** What every acquisition run guarantees, whatever its dependencies answer. */
module AcquisitionGuarantees {
  import opened Common
  import opened Text
  import opened Platform
  import opened DiscoveryTables
  import opened CompanySelection
  import opened LeadAcquisition
  import CompanyPlan

  // ----- The books balance --------------------------------------------------------------------------------

  /** The attempts that have ended, one way or another, without stopping the run. */
  function Ended(x: Tally): nat {
    x.completed.count + x.exits.duplicatesSkipped + x.exits.noSelection + x.exits.noEmail + x.exits.draftFailures
  }

  function Companies(x: Tally): nat {
    x.made.companiesCreated + x.made.companiesReused
  }

  function Contacts(x: Tally): nat {
    x.made.contactsCreated + x.made.contactsReused
  }

  function Leads(x: Tally): nat {
    x.made.leadsCreated + x.made.leadsReused
  }

  function Tasks(x: Tally): nat {
    x.made.tasksCreated + x.made.tasksReused
  }

  /**
   What holds between any two steps, with `contactsDue` companies yet to find a contact and `draftsDue` to be
   drafted for.
   */
  predicate Books(x: Tally, contactsDue: nat, draftsDue: nat) {
    && x.exits.draftsCreated == x.completed.count
    && Leads(x) == Tasks(x)
    && Companies(x) == Contacts(x) + x.exits.noContact + contactsDue
    && Companies(x) == x.exits.draftCalls + x.exits.noEmail + draftsDue
    && CountsMatch(x.completed)
  }

  /**
   The conservation laws in the middle of an attempt: a started attempt has yet to end, a company in hand has yet
   to find its contact, and then its draft or the lack of an address.
   */
  predicate Balanced(x: Tally, stage: Stage) {
    && x.attempts == Ended(x) + One(stage != Planning)
    && x.cursor == x.attempts
    && Books(x, One(stage.UsingContact?), One(stage.UsingContact? || stage.UsingAddress? || stage.Drafting?))
  }

  /** The conservation laws at the end of a run; a provider stop is one attempt that ended in no other way. */
  predicate Settled(turn: Turn) {
    match turn
    case Go(x) => Balanced(x, Planning)
    case Halt(x) => x.attempts == Ended(x) + 1 && x.attempts == x.cursor + 1 && Books(x, 0, 0)
    case Fail(_) => true
  }

  predicate BalancedMove(move: Move) {
    match move case Ends(turn) => Settled(turn) case Moves(y, next) => Balanced(y, next)
  }

  lemma PlanBalances(d: Dependencies, x: Tally)
    requires Balanced(x, Planning)
    ensures BalancedMove(Plan(d, x))
  {
  }

  lemma FollowBalances(d: Dependencies, x: Tally, o: PlanOutcome)
    requires Balanced(x, Following(o))
    ensures BalancedMove(FollowPlan(d, x, o))
  {
  }

  lemma CompanyBalances(d: Dependencies, x: Tally, companyId: int, created: bool, reused: bool)
    requires Balanced(x, UsingCompany(companyId, created, reused))
    ensures BalancedMove(UseCompany(d, x, companyId, created, reused))
  {
  }

  lemma ContactBalances(usable: Option<string> -> Option<string>, d: Dependencies, x: Tally, companyId: int,
                        plan: ContactPlan)
    requires Balanced(x, UsingContact(companyId, plan))
    ensures BalancedMove(UseContact(usable, d, x, companyId, plan))
  {
    if plan.candidateId.None? || plan.token.None? {
      NoContactBalances(x, companyId);
    } else {
      match d.contactApply(companyId, plan.candidateId.value, plan.token.value)
      case ContactFailed =>
      case ContactUnavailable => NoContactBalances(x, companyId);
      case ContactApplied(c) =>
        if c.contactCreated != c.contactReused && c.leadCreated != c.leadReused && c.taskCreated != c.taskReused {
          ContactCountBalances(x, c);
        }
    }
  }

  lemma NoContactBalances(x: Tally, companyId: int)
    requires Balanced(x, UsingContact(companyId, ContactPlan(None, None, None, 0, 0)))
    ensures BalancedMove(NoContact(x, companyId))
  {
  }

  lemma ContactCountBalances(x: Tally, c: Contact)
    requires Balanced(x, UsingContact(0, ContactPlan(None, None, None, 0, 0)))
    requires c.contactCreated != c.contactReused && c.leadCreated != c.leadReused && c.taskCreated != c.taskReused
    ensures Balanced(x.(made := CountContact(x.made, c)), UsingAddress(0))
  {
  }

  lemma AddressBalances(usable: Option<string> -> Option<string>, d: Dependencies, x: Tally, companyId: int)
    requires Balanced(x, UsingAddress(companyId))
    ensures BalancedMove(UseAddress(usable, d, x, companyId))
  {
  }

  lemma DraftBalances(usable: Option<string> -> Option<string>, d: Dependencies, x: Tally, companyId: int,
                      contactId: Option<int>, leadId: int, taskId: int, email: string)
    requires Balanced(x, Drafting(companyId, contactId, leadId, taskId, email))
    ensures Settled(CompleteDraft(usable, d, x, companyId, contactId, leadId, taskId, email))
  {
    match d.generate(companyId, contactId, leadId, taskId)
    case DraftFailed =>
    case DraftUnavailable =>
    case Drafted(draft) =>
  }

  lemma AdvanceKeepsBalance(usable: Option<string> -> Option<string>, d: Dependencies, x: Tally, stage: Stage)
    requires Balanced(x, stage)
    ensures BalancedMove(Advance(usable, d, x, stage))
  {
    match stage
    case Planning => PlanBalances(d, x);
    case Following(o) => FollowBalances(d, x, o);
    case UsingCompany(companyId, created, reused) => CompanyBalances(d, x, companyId, created, reused);
    case UsingContact(companyId, plan) => ContactBalances(usable, d, x, companyId, plan);
    case UsingAddress(companyId) => AddressBalances(usable, d, x, companyId);
    case Drafting(companyId, contactId, leadId, taskId, email) =>
      DraftBalances(usable, d, x, companyId, contactId, leadId, taskId, email);
  }

  lemma {:induction false} AttemptKeepsBalance(usable: Option<string> -> Option<string>, d: Dependencies, x: Tally,
                                               stage: Stage)
    requires Balanced(x, stage)
    ensures Settled(AttemptFrom(usable, d, x, stage))
    decreases Rank(stage)
  {
    AdvanceKeepsBalance(usable, d, x, stage);
    var move := Advance(usable, d, x, stage);
    if move.Moves? {
      AttemptKeepsBalance(usable, d, move.tally, move.next);
    }
  }

  /** An attempt is counted once and completes at most once. */
  predicate WithinOne(x: Tally, turn: Turn, attempts: nat) {
    match turn
    case Fail(_) => true
    case Go(y) => y.attempts == attempts && y.completed.count <= x.completed.count + 1
    case Halt(y) => y.attempts == attempts && y.completed.count == x.completed.count
  }

  lemma {:induction false} AttemptMovesByOne(usable: Option<string> -> Option<string>, d: Dependencies, x: Tally,
                                             stage: Stage)
    ensures WithinOne(x, AttemptFrom(usable, d, x, stage), x.attempts + One(stage == Planning))
    decreases Rank(stage)
  {
    var move := Advance(usable, d, x, stage);
    if move.Moves? {
      AttemptMovesByOne(usable, d, move.tally, move.next);
    }
  }

  /** After k attempts the books balance, the limit is kept, and only an ended run has made fewer attempts than k. */
  predicate Fits(turn: Turn, limit: nat, k: nat) {
    && Settled(turn)
    && (!turn.Fail? ==> turn.tally.attempts <= k && turn.tally.completed.count <= limit)
    && (Open(turn, limit) ==> turn.tally.attempts == k)
    && (turn.Halt? ==> turn.tally.completed.count < limit)
  }

  lemma AttemptFits(usable: Option<string> -> Option<string>, d: Dependencies, x: Tally, limit: nat)
    requires Balanced(x, Planning) && x.completed.count < limit
    ensures Fits(AttemptFrom(usable, d, x, Planning), limit, x.attempts + 1)
  {
    AttemptKeepsBalance(usable, d, x, Planning);
    AttemptMovesByOne(usable, d, x, Planning);
    FitsWithinOne(x, AttemptFrom(usable, d, x, Planning), limit);
  }

  lemma FitsWithinOne(x: Tally, turn: Turn, limit: nat)
    requires x.completed.count < limit && Settled(turn) && WithinOne(x, turn, x.attempts + 1)
    ensures Fits(turn, limit, x.attempts + 1)
  {
  }

  lemma EndedStillFits(turn: Turn, limit: nat, k: nat)
    requires Fits(turn, limit, k) && !Open(turn, limit)
    ensures Fits(turn, limit, k + 1)
  {
  }

  lemma OpenIsBalanced(turn: Turn, limit: nat, k: nat)
    requires Fits(turn, limit, k) && Open(turn, limit)
    ensures turn.Go? && Balanced(turn.tally, Planning) && turn.tally.completed.count < limit && turn.tally.attempts == k
  {
  }

  lemma StartFits(x: Tally, limit: nat)
    requires Balanced(x, Planning) && x.attempts == 0 && x.completed.count == 0 && limit > 0
    ensures Fits(Go(x), limit, 0)
  {
  }

  lemma StartBalances(x: Tally)
    requires x.attempts == x.cursor == 0 && x.completed == Completed(0, 0, 0, [], [], [], [], [])
    requires x.exits == Exits(0, 0, 0, 0, 0, 0, 0, 0) && x.made == Made(0, 0, 0, 0, 0, 0, 0, 0)
    ensures Balanced(x, Planning)
  {
  }

  lemma {:induction false} RoundsFit(attempt: (nat, Tally) -> Turn, limit: nat, k: nat)
    requires limit > 0
    requires forall i: nat, x :: Balanced(x, Planning) && x.completed.count < limit ==>
      Fits(attempt(i, x), limit, x.attempts + 1)
    ensures Fits(Rounds(attempt, limit, k), limit, k)
  {
    if k == 0 {
      StartBalances(Rounds(attempt, limit, 0).tally);
      StartFits(Rounds(attempt, limit, 0).tally, limit);
    } else {
      RoundsFit(attempt, limit, k - 1);
      var before := Rounds(attempt, limit, k - 1);
      if Open(before, limit) {
        OpenIsBalanced(before, limit, k - 1);
        NextRound(attempt, limit, k - 1, before.tally);
      } else {
        EndedStillFits(before, limit, k - 1);
      }
    }
  }

  lemma RoundsBalance(usable: Option<string> -> Option<string>, env: nat -> Dependencies, limit: nat, k: nat)
    requires limit > 0
    ensures Fits(Rounds(Attempts(usable, env), limit, k), limit, k)
  {
    forall i: nat, x | Balanced(x, Planning) && x.completed.count < limit
      ensures Fits(Attempts(usable, env)(i, x), limit, x.attempts + 1)
    {
      AttemptFits(usable, env(i), x, limit);
    }
    RoundsFit(Attempts(usable, env), limit, k);
  }

  /**
   Every run that returns a result: each attempt ended in exactly one way or was the provider's stop; each draft
   created is a completion; leads go with tasks; each company found a contact or none, and led to a draft call or
   had no address; and the id lists are as long as the completions.
   */
  lemma ResultsConserve(usable: Option<string> -> Option<string>, env: nat -> Dependencies, limit: nat,
                        exportFile: Option<string>, exported: ExportReply, r: AcquisitionResult)
    requires limit > 0
    requires Conclude(limit, exportFile, exported, Rounds(Attempts(usable, env), limit, Budget(limit))) == Ok(r)
    ensures var x := r.tally;
      && x.attempts == x.completed.count + x.exits.duplicatesSkipped + x.exits.noSelection + x.exits.noEmail
                       + x.exits.draftFailures + One(r.status == PartialProviderStop)
      && x.exits.draftsCreated == x.completed.count == x.completed.personScoped + x.completed.companyScoped
      && Leads(x) == Tasks(x)
      && Companies(x) == Contacts(x) + x.exits.noContact == x.exits.draftCalls + x.exits.noEmail
      && |x.completed.companyIds| == |x.completed.leadIds| == |x.completed.taskIds| == |x.completed.draftIds|
         == x.completed.count
      && |x.completed.contactIds| == x.completed.personScoped
      && x.attempts <= r.budget && x.completed.count <= limit
  {
    RoundsBalance(usable, env, limit, Budget(limit));
  }

  // ----- When the result is refused -------------------------------------------------------------------------

  /** A provider stop on the last attempt the budget allows. */
  predicate StoppedLate(limit: nat, end: Turn) {
    end.Halt? && end.tally.attempts == Budget(limit)
  }

  /**
   A run that did not raise returns its result exactly when the reported call counts are not negative, no
   completed id is repeated or not positive, and the provider did not stop it on the last budgeted attempt.
   */
  lemma ResultRefusedExactlyWhen(usable: Option<string> -> Option<string>, env: nat -> Dependencies, limit: nat,
                                 exportFile: Option<string>, exported: ExportReply)
    requires limit > 0
    ensures var end := Rounds(Attempts(usable, env), limit, Budget(limit));
      !end.Fail? ==>
        (Conclude(limit, exportFile, exported, end).Ok? <==>
           ValidSpent(end.tally.spent) && ValidCompleted(end.tally.completed) && !StoppedLate(limit, end))
  {
    RoundsBalance(usable, env, limit, Budget(limit));
    var end := Rounds(Attempts(usable, env), limit, Budget(limit));
    if !end.Fail? {
      RefusalConditions(limit, exportFile, exported, end);
    }
  }

  lemma RefusalConditions(limit: nat, exportFile: Option<string>, exported: ExportReply, end: Turn)
    requires !end.Fail? && CountsMatch(end.tally.completed)
    requires end.tally.attempts <= Budget(limit) && end.tally.completed.count <= limit
    requires Open(end, limit) ==> end.tally.attempts == Budget(limit)
    requires end.Halt? ==> end.tally.completed.count < limit
    ensures Conclude(limit, exportFile, exported, end).Ok? <==>
      ValidSpent(end.tally.spent) && ValidCompleted(end.tally.completed) && !StoppedLate(limit, end)
  {
    assert ValidAlignment(Summarise(limit, exportFile, exported, end.tally, end.Halt?)) <==>
      ValidSpent(end.tally.spent) && ValidCompleted(end.tally.completed) && !StoppedLate(limit, end);
  }

  // ----- Well-formed dependencies ---------------------------------------------------------------------------

  predicate PositiveIds(ids: seq<int>) {
    forall i :: 0 <= i < |ids| ==> ids[i] > 0
  }

  predicate WellFormedPlan(reply: PlanReply) {
    match reply
    case Planned(o) =>
      && o.candidateCount >= 0 && o.discoveryCalls >= 0 && o.decisionCalls >= 0
      && (o.existingCompany.Some? ==> o.existingCompany.value > 0)
    case ProviderStop(discovery, decision, runs, candidates) =>
      discovery >= 0 && decision >= 0 && runs >= 0 && candidates >= 0
    case PlanFailed => true
  }

  predicate WellFormedCompany(reply: CompanyReply) {
    reply.Applied? ==> reply.companyId > 0
  }

  predicate WellFormedContactPlan(reply: ContactPlanReply) {
    match reply
    case ContactPlanned(plan) => plan.discoveryCalls >= 0 && plan.decisionCalls >= 0
    case ContactPlanUnavailable(discovery, decision) => discovery >= 0 && decision >= 0
    case ContactPlanFailed => true
  }

  predicate WellFormedContact(reply: ContactReply) {
    reply.ContactApplied? ==> reply.contact.contactId > 0 && reply.contact.leadId > 0 && reply.contact.taskId > 0
  }

  predicate WellFormedCompletion(reply: CompletionReply) {
    reply.CompanyCompleted? ==> reply.completion.leadId > 0 && reply.completion.taskId > 0
  }

  predicate WellFormedDraft(reply: DraftReply) {
    reply.Drafted? ==> reply.draft.draftId > 0
  }

  /** Counts are not negative and ids are positive in everything the dependencies answer. */
  ghost predicate WellFormed(d: Dependencies) {
    && (forall cursor, seen :: WellFormedPlan(d.plan(cursor, seen)))
    && (forall runId, candidateId :: WellFormedCompany(d.apply(runId, candidateId)))
    && (forall companyId :: WellFormedContactPlan(d.contactPlan(companyId)))
    && (forall companyId, candidateId, token :: WellFormedContact(d.contactApply(companyId, candidateId, token)))
    && (forall companyId, email :: WellFormedCompletion(d.complete(companyId, email)))
    && (forall companyId, contactId, leadId, taskId ::
        WellFormedDraft(d.generate(companyId, contactId, leadId, taskId)))
  }

  predicate Sound(x: Tally) {
    && ValidSpent(x.spent)
    && PositiveIds(x.completed.companyIds) && PositiveIds(x.completed.contactIds) && PositiveIds(x.completed.leadIds)
    && PositiveIds(x.completed.taskIds) && PositiveIds(x.completed.draftIds)
  }

  predicate SoundStage(stage: Stage) {
    match stage
    case Planning => true
    case Following(o) => o.existingCompany.Some? ==> o.existingCompany.value > 0
    case UsingCompany(companyId, _, _) => companyId > 0
    case UsingContact(companyId, _) => companyId > 0
    case UsingAddress(companyId) => companyId > 0
    case Drafting(companyId, contactId, leadId, taskId, _) =>
      companyId > 0 && leadId > 0 && taskId > 0 && (contactId.Some? ==> contactId.value > 0)
  }

  predicate SoundTurn(turn: Turn) {
    turn.Fail? || Sound(turn.tally)
  }

  predicate SoundMove(move: Move) {
    match move case Ends(turn) => SoundTurn(turn) case Moves(y, next) => Sound(y) && SoundStage(next)
  }

  lemma CompanyReplyIsWellFormed(d: Dependencies, runId: int, candidateId: int)
    requires WellFormed(d)
    ensures WellFormedCompany(d.apply(runId, candidateId))
  {
  }

  lemma ContactReplyIsWellFormed(d: Dependencies, companyId: int, candidateId: int, token: string)
    requires WellFormed(d)
    ensures WellFormedContact(d.contactApply(companyId, candidateId, token))
  {
  }

  lemma PlanStaysSound(d: Dependencies, x: Tally)
    requires WellFormed(d) && Sound(x)
    ensures SoundMove(Plan(d, x))
  {
  }

  lemma FollowStaysSound(d: Dependencies, x: Tally, o: PlanOutcome)
    requires WellFormed(d) && Sound(x) && SoundStage(Following(o))
    ensures SoundMove(FollowPlan(d, x, o))
  {
    if o.selected.Some? {
      CompanyReplyIsWellFormed(d, o.runId, o.selected.value);
    }
  }

  lemma CompanyStaysSound(d: Dependencies, x: Tally, companyId: int, created: bool, reused: bool)
    requires WellFormed(d) && Sound(x) && companyId > 0
    ensures SoundMove(UseCompany(d, x, companyId, created, reused))
  {
  }

  lemma ContactStaysSound(usable: Option<string> -> Option<string>, d: Dependencies, x: Tally, companyId: int,
                          plan: ContactPlan)
    requires WellFormed(d) && Sound(x) && companyId > 0
    ensures SoundMove(UseContact(usable, d, x, companyId, plan))
  {
    if plan.candidateId.Some? && plan.token.Some? {
      ContactReplyIsWellFormed(d, companyId, plan.candidateId.value, plan.token.value);
    }
  }

  lemma AddressStaysSound(usable: Option<string> -> Option<string>, d: Dependencies, x: Tally, companyId: int)
    requires WellFormed(d) && Sound(x) && companyId > 0
    ensures SoundMove(UseAddress(usable, d, x, companyId))
  {
  }

  lemma DraftStaysSound(usable: Option<string> -> Option<string>, d: Dependencies, x: Tally, companyId: int,
                        contactId: Option<int>, leadId: int, taskId: int, email: string)
    requires WellFormed(d) && Sound(x) && SoundStage(Drafting(companyId, contactId, leadId, taskId, email))
    ensures SoundTurn(CompleteDraft(usable, d, x, companyId, contactId, leadId, taskId, email))
  {
  }

  lemma {:induction false} AttemptStaysSound(usable: Option<string> -> Option<string>, d: Dependencies, x: Tally,
                                             stage: Stage)
    requires WellFormed(d) && Sound(x) && SoundStage(stage)
    ensures SoundTurn(AttemptFrom(usable, d, x, stage))
    decreases Rank(stage)
  {
    AdvanceStaysSound(usable, d, x, stage);
    var move := Advance(usable, d, x, stage);
    if move.Moves? {
      AttemptStaysSound(usable, d, move.tally, move.next);
    }
  }

  lemma AdvanceStaysSound(usable: Option<string> -> Option<string>, d: Dependencies, x: Tally, stage: Stage)
    requires WellFormed(d) && Sound(x) && SoundStage(stage)
    ensures SoundMove(Advance(usable, d, x, stage))
  {
    match stage
    case Planning => PlanStaysSound(d, x);
    case Following(o) => FollowStaysSound(d, x, o);
    case UsingCompany(companyId, created, reused) => CompanyStaysSound(d, x, companyId, created, reused);
    case UsingContact(companyId, plan) => ContactStaysSound(usable, d, x, companyId, plan);
    case UsingAddress(companyId) => AddressStaysSound(usable, d, x, companyId);
    case Drafting(companyId, contactId, leadId, taskId, email) =>
      DraftStaysSound(usable, d, x, companyId, contactId, leadId, taskId, email);
  }

  lemma {:induction false} RoundsAreSound(attempt: (nat, Tally) -> Turn, limit: nat, k: nat)
    requires forall i: nat, x :: Sound(x) ==> SoundTurn(attempt(i, x))
    ensures SoundTurn(Rounds(attempt, limit, k))
  {
    if k != 0 {
      RoundsAreSound(attempt, limit, k - 1);
    }
  }

  /** Well-formed answers keep the reported counts non-negative and the completed ids positive. */
  lemma RoundsStaySound(usable: Option<string> -> Option<string>, env: nat -> Dependencies, limit: nat, k: nat)
    requires forall i: nat :: WellFormed(env(i))
    ensures SoundTurn(Rounds(Attempts(usable, env), limit, k))
  {
    forall i: nat, x | Sound(x)
      ensures SoundTurn(Attempts(usable, env)(i, x))
    {
      AttemptStaysSound(usable, env(i), x, Planning);
    }
    RoundsAreSound(Attempts(usable, env), limit, k);
  }

  // ----- Repeated completions ---------------------------------------------------------------------------------

  predicate GrowsByOne(xs: seq<int>, ys: seq<int>) {
    ys == xs || (|ys| == |xs| + 1 && ys[..|xs|] == xs)
  }

  predicate Grows(c: Completed, e: Completed) {
    && GrowsByOne(c.companyIds, e.companyIds) && GrowsByOne(c.contactIds, e.contactIds)
    && GrowsByOne(c.leadIds, e.leadIds)
    && GrowsByOne(c.taskIds, e.taskIds) && GrowsByOne(c.draftIds, e.draftIds)
  }

  predicate TurnGrows(c: Completed, turn: Turn) {
    turn.Fail? || Grows(c, turn.tally.completed)
  }

  lemma {:induction false} AttemptGrows(usable: Option<string> -> Option<string>, d: Dependencies, x: Tally,
                                        stage: Stage)
    ensures TurnGrows(x.completed, AttemptFrom(usable, d, x, stage))
    decreases Rank(stage)
  {
    var move := Advance(usable, d, x, stage);
    if move.Moves? {
      AttemptGrows(usable, d, move.tally, move.next);
    }
  }

  predicate NewIsFresh(xs: seq<int>, ys: seq<int>) {
    |ys| > |xs| ==> ys[|ys| - 1] !in xs
  }

  /**
   The attempt between two turns completes nothing whose company, contact, lead, task or draft was completed
   before.
   */
  predicate CompletesAnew(before: Turn, after: Turn) {
    before.Fail? || after.Fail? ||
      var (c, e) := (before.tally.completed, after.tally.completed);
      && NewIsFresh(c.companyIds, e.companyIds) && NewIsFresh(c.contactIds, e.contactIds)
      && NewIsFresh(c.leadIds, e.leadIds)
      && NewIsFresh(c.taskIds, e.taskIds) && NewIsFresh(c.draftIds, e.draftIds)
  }

  predicate NoRepeats(attempt: (nat, Tally) -> Turn, limit: nat, k: nat) {
    k == 0 || (NoRepeats(attempt, limit, k - 1)
               && CompletesAnew(Rounds(attempt, limit, k - 1), Rounds(attempt, limit, k)))
  }

  lemma DistinctGrows(xs: seq<int>, ys: seq<int>)
    requires GrowsByOne(xs, ys)
    ensures Distinct(ys) <==> Distinct(xs) && NewIsFresh(xs, ys)
  {
    if |ys| == |xs| + 1 {
      assert forall i :: 0 <= i < |xs| ==> ys[i] == ys[..|xs|][i];
    }
  }

  predicate AllDistinct(c: Completed) {
    && Distinct(c.companyIds) && Distinct(c.contactIds) && Distinct(c.leadIds) && Distinct(c.taskIds)
    && Distinct(c.draftIds)
  }

  lemma AllDistinctGrows(before: Turn, after: Turn)
    requires !before.Fail? && !after.Fail? && Grows(before.tally.completed, after.tally.completed)
    ensures AllDistinct(after.tally.completed) <==> AllDistinct(before.tally.completed) && CompletesAnew(before, after)
  {
    var c, e := before.tally.completed, after.tally.completed;
    DistinctGrows(c.companyIds, e.companyIds);
    DistinctGrows(c.contactIds, e.contactIds);
    DistinctGrows(c.leadIds, e.leadIds);
    DistinctGrows(c.taskIds, e.taskIds);
    DistinctGrows(c.draftIds, e.draftIds);
  }

  lemma {:induction false} DistinctExactlyWithoutRepeats(attempt: (nat, Tally) -> Turn, limit: nat, k: nat)
    requires forall i: nat, x: Tally :: TurnGrows(x.completed, attempt(i, x))
    requires !Rounds(attempt, limit, k).Fail?
    ensures AllDistinct(Rounds(attempt, limit, k).tally.completed) <==> NoRepeats(attempt, limit, k)
  {
    if k == 0 {
      assert Rounds(attempt, limit, 0) == Go(EMPTY);
    } else {
      var before, after := Rounds(attempt, limit, k - 1), Rounds(attempt, limit, k);
      DistinctExactlyWithoutRepeats(attempt, limit, k - 1);
      if Open(before, limit) {
        NextRound(attempt, limit, k - 1, before.tally);
        assert TurnGrows(before.tally.completed, attempt(k - 1, before.tally));
      }
      AllDistinctGrows(before, after);
    }
  }

  lemma ValidExactlyWhenPositiveAndDistinct(x: Tally)
    requires Sound(x)
    ensures ValidSpent(x.spent)
    ensures ValidCompleted(x.completed) <==> AllDistinct(x.completed)
  {
  }

  /**
   With well-formed dependencies a run that did not raise returns its result exactly when no attempt completed a
   company, contact, lead, task or draft completed before and the provider did not stop the run on the last
   budgeted attempt; otherwise it ends as a serialization failure.
   */
  lemma RefusedExactlyOnRepeatOrLateStop(usable: Option<string> -> Option<string>, env: nat -> Dependencies, limit: nat,
                                         exportFile: Option<string>, exported: ExportReply)
    requires limit > 0 && forall i: nat :: WellFormed(env(i))
    requires !Rounds(Attempts(usable, env), limit, Budget(limit)).Fail?
    ensures var end := Rounds(Attempts(usable, env), limit, Budget(limit));
      if NoRepeats(Attempts(usable, env), limit, Budget(limit)) && !StoppedLate(limit, end)
      then Conclude(limit, exportFile, exported, end).Ok?
      else Conclude(limit, exportFile, exported, end) == Err(ResultSerialization)
  {
    ResultRefusedExactlyWhen(usable, env, limit, exportFile, exported);
    RoundsStaySound(usable, env, limit, Budget(limit));
    forall i: nat, x: Tally
      ensures TurnGrows(x.completed, Attempts(usable, env)(i, x))
    {
      AttemptGrows(usable, env(i), x, Planning);
    }
    DistinctExactlyWithoutRepeats(Attempts(usable, env), limit, Budget(limit));
    ValidExactlyWhenPositiveAndDistinct(Rounds(Attempts(usable, env), limit, Budget(limit)).tally);
    ErrorsOfConclude(limit, exportFile, exported, Rounds(Attempts(usable, env), limit, Budget(limit)));
  }

  lemma ErrorsOfConclude(limit: nat, exportFile: Option<string>, exported: ExportReply, end: Turn)
    requires !end.Fail?
    ensures Conclude(limit, exportFile, exported, end).Ok?
      || Conclude(limit, exportFile, exported, end) == Err(ResultSerialization)
  {
  }

  // ----- Addresses and budgets -------------------------------------------------------------------------------

  /** The parts of a usable address: something before the one `@`, and a domain with a dot inside it. */
  predicate AddressParts(address: string, before: string, domain: string) {
    && address == before + "@" + domain && before != "" && domain != "" && '@' !in before && '@' !in domain
    && '.' in domain && domain[0] != '.' && domain[|domain| - 1] != '.'
  }

  lemma {:induction false} FirstAt(s: string)
    ensures '@' !in s[..IndexOfAt(s)]
  {
    if s != "" && s[0] != '@' {
      FirstAt(s[1..]);
      assert s[..IndexOfAt(s)] == [s[0]] + s[1..][..IndexOfAt(s[1..])];
    }
  }

  /** An address is usable exactly when it has no blank and its folded form, which is then used, has these parts. */
  lemma UsableExactlyWhen(t: Tables, value: string)
    ensures match UsableEmail(t, Some(value))
      case Some(address) =>
        && (forall c :: c in value ==> !IsSpace(c)) && address == t.casefold(value)
        && exists before, domain :: AddressParts(address, before, domain)
      case None =>
        || (exists c :: c in value && IsSpace(c))
        || forall before, domain :: !AddressParts(t.casefold(value), before, domain)
  {
    var address := t.casefold(value);
    var at := IndexOfAt(address);
    FirstAt(address);
    if at < |address| {
      assert address == address[..at] + "@" + address[at + 1..];
    }
    forall before, domain | AddressParts(address, before, domain)
      ensures at == |before| < |address| && address[at + 1..] == domain
    {
      AtIsFound(address, before, domain);
    }
    if UsableEmail(t, Some(value)).Some? {
      assert AddressParts(address, address[..at], address[at + 1..]);
    }
  }

  lemma {:induction false} AtIsFound(address: string, before: string, domain: string)
    requires address == before + "@" + domain && '@' !in before
    ensures IndexOfAt(address) == |before| && address[|before| + 1..] == domain
    decreases |before|
  {
    if before != "" {
      assert address[0] == before[0] && address[1..] == before[1..] + "@" + domain;
      AtIsFound(address[1..], before[1..], domain);
    }
  }

  // ----- Plan calls -------------------------------------------------------------------------------------------

  /** The budget covers twice the limit and stays within a hundred. */
  lemma BudgetBounds(limit: nat)
    requires 1 <= limit <= 50
    ensures 10 <= Budget(limit) <= 100 && Budget(limit) >= 2 * limit
    ensures limit >= 20 ==> Budget(limit) == 100
    ensures Budget(limit) == if limit == 1 then 10 else if limit <= 20 then 5 * limit else 100
  {
  }

  /** The plan call of attempt k gets offset k, so every offset lies within the accepted range 0..99. */
  lemma PlanOffsetsAreInRange(usable: Option<string> -> Option<string>, env: nat -> Dependencies, limit: nat, k: nat)
    requires 1 <= limit <= 50 && k < Budget(limit) && Open(Rounds(Attempts(usable, env), limit, k), limit)
    ensures Rounds(Attempts(usable, env), limit, k).tally.cursor == k <= 99
  {
    RoundsBalance(usable, env, limit, k);
    OpenIsBalanced(Rounds(Attempts(usable, env), limit, k), limit, k);
  }

  function ReportedDecisions(reply: PlanReply): int {
    match reply
    case Planned(o) => o.decisionCalls
    case ProviderStop(_, decision, _, _) => decision
    case PlanFailed => 0
  }

  /**
   What a plan call keeps to, whatever it answers: it asks only about a request that is not excluded, a decision it
   reports is one it asked for, and if it returns a plan that plan names the request.
   */
  predicate KeepsContract(seen: set<string>, asked: Option<string>, reply: PlanReply) {
    && (asked.Some? ==> asked.value !in seen)
    && (ReportedDecisions(reply) != 0 ==> asked.Some?)
    && (asked.Some? && reply.Planned? ==> reply.outcome.fingerprint == asked)
  }

  predicate Remembers(x: Tally, seen: set<string>, turn: Turn) {
    turn.Go? ==> seen <= turn.tally.fingerprints
  }

  lemma {:induction false} LaterStagesRemember(usable: Option<string> -> Option<string>, d: Dependencies, x: Tally,
                                               stage: Stage)
    requires stage != Planning
    ensures Remembers(x, x.fingerprints, AttemptFrom(usable, d, x, stage))
    decreases Rank(stage)
  {
    var move := Advance(usable, d, x, stage);
    if move.Moves? {
      LaterStagesRemember(usable, d, move.tally, move.next);
    }
  }

  function Reported(reply: PlanReply): set<string> {
    if reply.Planned? && reply.outcome.fingerprint.Some? then {reply.outcome.fingerprint.value} else {}
  }

  lemma AttemptRemembers(usable: Option<string> -> Option<string>, d: Dependencies, x: Tally)
    ensures Remembers(x, x.fingerprints + Reported(d.plan(x.cursor, x.fingerprints)),
                      AttemptFrom(usable, d, x, Planning))
  {
    var move := Plan(d, x);
    if move.Moves? {
      LaterStagesRemember(usable, d, move.tally, move.next);
    }
  }

  lemma {:induction false} OpenBefore(attempt: (nat, Tally) -> Turn, limit: nat, i: nat, j: nat)
    requires i <= j && Open(Rounds(attempt, limit, j), limit)
    ensures Open(Rounds(attempt, limit, i), limit)
    decreases j
  {
    if i < j {
      OpenBefore(attempt, limit, i, j - 1);
    }
  }

  lemma {:induction false} RoundsRemember(usable: Option<string> -> Option<string>, env: nat -> Dependencies,
                                          limit: nat, i: nat, j: nat)
    requires i < j && Open(Rounds(Attempts(usable, env), limit, j), limit)
    ensures Open(Rounds(Attempts(usable, env), limit, i), limit)
    ensures var x := Rounds(Attempts(usable, env), limit, i).tally;
      x.fingerprints + Reported(env(i).plan(x.cursor, x.fingerprints))
      <= Rounds(Attempts(usable, env), limit, j).tally.fingerprints
    decreases j
  {
    var attempt := Attempts(usable, env);
    var before := Rounds(attempt, limit, j - 1);
    OpenBefore(attempt, limit, j - 1, j);
    NextRound(attempt, limit, j - 1, before.tally);
    AttemptRemembers(usable, env(j - 1), before.tally);
    if i < j - 1 {
      RoundsRemember(usable, env, limit, i, j - 1);
    }
  }

  /** The request asked about by the plan call of attempt k, if the run gets there; `asked` says what each call asks. */
  function AskedAt(usable: Option<string> -> Option<string>, env: nat -> Dependencies, limit: nat,
                   asked: (nat, nat, set<string>) -> Option<string>, k: nat): Option<string>
  {
    var before := Rounds(Attempts(usable, env), limit, k);
    if Open(before, limit) then asked(k, before.tally.cursor, before.tally.fingerprints) else None
  }

  /**
   No request is decided twice in a run: two attempts that each ask for a decision, whether a plan, a provider stop or a
   failure comes of it, ask about different fingerprints.
   */
  lemma NoFingerprintIsDecidedTwice(usable: Option<string> -> Option<string>, env: nat -> Dependencies, limit: nat,
                                    asked: (nat, nat, set<string>) -> Option<string>, i: nat, j: nat)
    requires forall k: nat, offset: nat, seen: set<string> ::
      KeepsContract(seen, asked(k, offset, seen), env(k).plan(offset, seen))
    requires i < j && AskedAt(usable, env, limit, asked, i).Some? && AskedAt(usable, env, limit, asked, j).Some?
    ensures AskedAt(usable, env, limit, asked, i) != AskedAt(usable, env, limit, asked, j)
  {
    RoundsRemember(usable, env, limit, i, j);
    var x := Rounds(Attempts(usable, env), limit, i).tally;
    var y := Rounds(Attempts(usable, env), limit, j).tally;
    assert KeepsContract(x.fingerprints, asked(i, x.cursor, x.fingerprints), env(i).plan(x.cursor, x.fingerprints));
    assert KeepsContract(y.fingerprints, asked(j, y.cursor, y.fingerprints), env(j).plan(y.cursor, y.fingerprints));
    EarlierWasPlanned(usable, env, limit, i, j);
    assert Reported(env(i).plan(x.cursor, x.fingerprints)) <= y.fingerprints;
  }

  /** An attempt that is followed by another got a plan. */
  lemma EarlierWasPlanned(usable: Option<string> -> Option<string>, env: nat -> Dependencies, limit: nat, i: nat,
                          j: nat)
    requires i < j && Open(Rounds(Attempts(usable, env), limit, i), limit)
      && Open(Rounds(Attempts(usable, env), limit, j), limit)
    ensures var x := Rounds(Attempts(usable, env), limit, i).tally; env(i).plan(x.cursor, x.fingerprints).Planned?
  {
    OpenBefore(Attempts(usable, env), limit, i + 1, j);
    var x := Rounds(Attempts(usable, env), limit, i).tally;
    NextRound(Attempts(usable, env), limit, i, x);
    OnlyPlansGoOn(usable, env(i), x);
  }

  lemma OnlyPlansGoOn(usable: Option<string> -> Option<string>, d: Dependencies, x: Tally)
    requires AttemptFrom(usable, d, x, Planning).Go?
    ensures d.plan(x.cursor, x.fingerprints).Planned?
  {
  }

  // ----- The company plan as the loop's dependency --------------------------------------------------------------

  /** How the loop sees the result of a company plan. */
  function AsOutcome(r: CompanyPlan.PlanResult, discoveryCalls: nat): PlanOutcome {
    PlanOutcome(r.runId, r.staged, if r.selectedCandidate.Some? then Some(r.selectedCandidate.value) else None,
                discoveryCalls, r.decisionCalls, r.fingerprint, r.suppressed,
                if r.existingCompany.Some? then Some(r.existingCompany.value) else None)
  }

  /** A plan built on the selection service meets the contract the loop relies on, for every reply it is turned into. */
  lemma CompanyPlansKeepContract(s: Store, boundary: CompanyPlan.DecisionBoundary, runId: nat, staged: nat,
                                 data: CompanyPlan.PlanInput, evidence: map<string, Evidence>, discoveryCalls: nat)
    ensures var asked := CompanyPlan.AskedFingerprint(s, boundary, runId, data, evidence);
      match CompanyPlan.PlanSelection(s, boundary, runId, staged, data, evidence)
      case Ok(r) => KeepsContract(data.excluded, asked, Planned(AsOutcome(r, discoveryCalls)))
      case Err(DecisionFailed) => KeepsContract(data.excluded, asked, ProviderStop(0, 0, 0, 0)) && asked.Some?
      case Err(_) => KeepsContract(data.excluded, asked, PlanFailed)
  {
    var planned := CompanyPlan.PlanSelection(s, boundary, runId, staged, data, evidence);
    if planned.Ok? {
      CompanyPlan.DecidedRequestsAreSuppressed(s, boundary, runId, staged, data, evidence, planned.value);
    }
  }

  // ----- Runs that show the bounds are met ------------------------------------------------------------------------

  /** Dependencies that plan without selecting anything until an offset is reached, where the provider stops. */
  function Idle(stopAt: nat): Dependencies {
    Dependencies(
      (offset: nat, seen: set<string>) =>
        if offset == stopAt then ProviderStop(1, 0, 0, 0)
        else Planned(PlanOutcome(1, 0, None, 1, 0, None, false, None)),
      (companyId: int) => false, (runId: int, candidateId: int) => CompanyUnavailable,
      (companyId: int) => ContactPlanUnavailable(0, 0),
      (companyId: int, candidateId: int, token: string) => ContactUnavailable,
      (companyId: int) => Email(None), None, (companyId: int) => Email(None),
      (companyId: int, email: string) => CompletionFailed,
      (companyId: int, contactId: Option<int>, leadId: int, taskId: int) => DraftUnavailable)
  }

  lemma IdleAttempt(usable: Option<string> -> Option<string>, stopAt: nat, x: Tally)
    ensures var turn := AttemptFrom(usable, Idle(stopAt), x, Planning);
      if x.cursor == stopAt then turn.Halt? && turn.tally.attempts == x.attempts + 1
      else turn.Go? && turn.tally.attempts == x.attempts + 1 && turn.tally.cursor == x.cursor + 1
           && turn.tally.completed == x.completed
  {
    if x.cursor != stopAt {
      var move := Plan(Idle(stopAt), x);
      assert move.Moves? && move.next.Following? && move.next.outcome.selected.None? && !move.next.outcome.suppressed;
      assert Advance(usable, Idle(stopAt), move.tally, move.next)
        == FollowPlan(Idle(stopAt), move.tally, move.next.outcome);
    }
  }

  lemma {:induction false} IdleRounds(usable: Option<string> -> Option<string>, stopAt: nat, limit: nat, k: nat)
    requires limit > 0 && k <= stopAt
    ensures var turn := Rounds(Attempts(usable, _ => Idle(stopAt)), limit, k);
      Open(turn, limit) && turn.tally.attempts == turn.tally.cursor == k
  {
    if k != 0 {
      IdleRounds(usable, stopAt, limit, k - 1);
      var before := Rounds(Attempts(usable, _ => Idle(stopAt)), limit, k - 1).tally;
      NextRound(Attempts(usable, _ => Idle(stopAt)), limit, k - 1, before);
      IdleAttempt(usable, stopAt, before);
    }
  }

  /** The range is met exactly: a run with a limit of 20 or more may make a plan call at offset 99. */
  lemma OffsetNinetyNineIsReached(usable: Option<string> -> Option<string>, limit: nat)
    requires 20 <= limit <= 50
    ensures WellFormed(Idle(99))
    ensures var before := Rounds(Attempts(usable, _ => Idle(99)), limit, 99);
      Open(before, limit) && 99 < Budget(limit) && before.tally.cursor == 99
  {
    IdleRounds(usable, 99, limit, 99);
  }

  /** For every limit there are well-formed dependencies whose late provider stop turns the run into a failure. */
  lemma LateStopIsRefused(usable: Option<string> -> Option<string>, limit: nat, exportFile: Option<string>,
                          exported: ExportReply)
    requires 1 <= limit <= 50
    ensures WellFormed(Idle(Budget(limit) - 1))
    ensures var env := _ => Idle(Budget(limit) - 1);
      Conclude(limit, exportFile, exported, Rounds(Attempts(usable, env), limit, Budget(limit)))
        == Err(ResultSerialization)
  {
    var last := Budget(limit) - 1;
    var env := _ => Idle(last);
    IdleRounds(usable, last, limit, last);
    var before := Rounds(Attempts(usable, env), limit, last).tally;
    NextRound(Attempts(usable, env), limit, last, before);
    IdleAttempt(usable, last, before);
    ResultRefusedExactlyWhen(usable, env, limit, exportFile, exported);
    ErrorsOfConclude(limit, exportFile, exported, Rounds(Attempts(usable, env), limit, Budget(limit)));
  }

  /** Dependencies whose every attempt applies to company 1, says it is complete when asked, and drafts anew. */
  function Repeating(i: nat, address: string): Dependencies {
    Dependencies(
      (offset: nat, seen: set<string>) => Planned(PlanOutcome(1, 1, Some(i + 1), 1, 1, None, false, None)),
      (companyId: int) => true, (runId: int, candidateId: int) => Applied(1, false, true),
      (companyId: int) => ContactPlanned(ContactPlan(Some(1), Some(address), Some("token"), 0, 0)),
      (companyId: int, candidateId: int, token: string) =>
        ContactApplied(Contact(i + 1, i + 1, i + 1, true, false, true, false, true, false)),
      (companyId: int) => Email(None), None, (companyId: int) => Email(None),
      (companyId: int, email: string) => CompletionFailed,
      (companyId: int, contactId: Option<int>, leadId: int, taskId: int) =>
        Drafted(Draft(i + 1, contactId, leadId, address, true, true, false)))
  }

  predicate CompletesOne(c: Completed, turn: Turn) {
    turn.Go? && turn.tally.completed.count == c.count + 1 && turn.tally.completed.companyIds == c.companyIds + [1]
  }

  lemma RepeatingDraft(usable: Option<string> -> Option<string>, i: nat, address: string, x: Tally)
    requires usable(Some(address)) == Some(address)
    ensures CompletesOne(x.completed,
                         AttemptFrom(usable, Repeating(i, address), x, Drafting(1, Some(i + 1), i + 1, i + 1, address)))
  {
  }

  lemma RepeatingContact(usable: Option<string> -> Option<string>, i: nat, address: string, x: Tally)
    requires usable(Some(address)) == Some(address)
    ensures CompletesOne(x.completed, AttemptFrom(usable, Repeating(i, address), x,
                                                  UsingContact(1, ContactPlan(
                                                    Some(1), Some(address), Some("token"), 0, 0))))
  {
    var move := UseContact(usable, Repeating(i, address), x, 1,
                           ContactPlan(Some(1), Some(address), Some("token"), 0, 0));
    RepeatingDraft(usable, i, address, move.tally);
  }

  lemma RepeatingCompany(usable: Option<string> -> Option<string>, i: nat, address: string, x: Tally)
    requires usable(Some(address)) == Some(address)
    ensures CompletesOne(x.completed, AttemptFrom(usable, Repeating(i, address), x, UsingCompany(1, false, true)))
  {
    RepeatingContact(usable, i, address, UseCompany(Repeating(i, address), x, 1, false, true).tally);
  }

  lemma RepeatingChoice(usable: Option<string> -> Option<string>, i: nat, address: string, x: Tally)
    requires usable(Some(address)) == Some(address)
    ensures CompletesOne(x.completed, AttemptFrom(usable, Repeating(i, address), x,
                                                  Following(PlanOutcome(1, 1, Some(i + 1), 1, 1, None, false, None))))
  {
    RepeatingCompany(usable, i, address, x);
  }

  lemma RepeatingAttempt(usable: Option<string> -> Option<string>, i: nat, address: string, x: Tally)
    requires usable(Some(address)) == Some(address)
    ensures CompletesOne(x.completed, AttemptFrom(usable, Repeating(i, address), x, Planning))
  {
    RepeatingChoice(usable, i, address, Plan(Repeating(i, address), x).tally);
  }

  lemma {:induction false} RepeatingRounds(usable: Option<string> -> Option<string>, address: string, k: nat)
    requires usable(Some(address)) == Some(address) && k <= 2
    ensures var turn := Rounds(Attempts(usable, (i: nat) => Repeating(i, address)), 2, k);
      && turn.Go? && turn.tally.completed.count == k
      && turn.tally.completed.companyIds == seq(k, _ => 1)
  {
    if k != 0 {
      RepeatingRounds(usable, address, k - 1);
      var before := Rounds(Attempts(usable, (i: nat) => Repeating(i, address)), 2, k - 1).tally;
      NextRound(Attempts(usable, (i: nat) => Repeating(i, address)), 2, k - 1, before);
      RepeatingAttempt(usable, k - 1, address, before);
    }
  }

  /**
   A company applied in two attempts is completed twice, whatever the already-complete check says, and the
   result refused.
   */
  lemma RepeatedCompanyIsRefused(usable: Option<string> -> Option<string>, address: string,
                                 exportFile: Option<string>, exported: ExportReply)
    requires usable(Some(address)) == Some(address)
    ensures forall i: nat :: WellFormed(Repeating(i, address))
    ensures Conclude(2, exportFile, exported, Rounds(Attempts(usable, (i: nat) => Repeating(i, address)), 2, Budget(2)))
            == Err(ResultSerialization)
  {
    forall i: nat
      ensures WellFormed(Repeating(i, address))
    {
      RepeatingIsWellFormed(i, address);
    }
    RepeatingEnds(usable, address, exportFile, exported);
  }

  lemma RepeatingIsWellFormed(i: nat, address: string)
    ensures WellFormed(Repeating(i, address))
  {
  }

  lemma RepeatingEnds(usable: Option<string> -> Option<string>, address: string, exportFile: Option<string>,
                      exported: ExportReply)
    requires usable(Some(address)) == Some(address)
    ensures Conclude(2, exportFile, exported, Rounds(Attempts(usable, (i: nat) => Repeating(i, address)), 2, Budget(2)))
            == Err(ResultSerialization)
  {
    var env := (i: nat) => Repeating(i, address);
    RepeatingRounds(usable, address, 2);
    RoundsSettle(Attempts(usable, env), 2, 2, Budget(2));
    var end := Rounds(Attempts(usable, env), 2, Budget(2));
    var ids := end.tally.completed.companyIds;
    assert ids[0] == ids[1];
    ResultRefusedExactlyWhen(usable, env, 2, exportFile, exported);
    ErrorsOfConclude(2, exportFile, exported, end);
  }
}
