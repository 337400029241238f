/** Company-scoped outreach: one active task, on a lead of the company that names no contact. */
module OutreachCompletion {
  import opened Common
  import opened ContactApply

  const LEAD_SOURCE := "COMPANY_SCOPED_OUTREACH"
  const TASK_TITLE := "Prepare personalized company outreach email"
  const TASK_DESCRIPTION := "Prepare a personalized manual outreach email for the company recipient."

  datatype OutreachError =
    | InvalidInput | ProjectNotFound | CompanyNotFound | EmailNotFound | EmailConflict | Conflict

  datatype Outreach = Outreach(leadId: nat, taskId: nat, leadCreated: bool, taskCreated: bool)

  predicate CompanyScoped(lead: Lead, companyId: nat) {
    lead.companyId == companyId && lead.contactId.None?
  }

  /** The company-scoped leads of a company below an id, by id. */
  function ScopedLeads(leads: map<nat, Lead>, bound: nat, companyId: nat): seq<nat> {
    if bound == 0 then []
    else ScopedLeads(leads, bound - 1, companyId) + if bound - 1 in leads
      && CompanyScoped(leads[bound - 1], companyId) then [bound - 1] else []
  }

  /** An outreach task that is still to be done. */
  predicate Active(task: Task) {
    task.title == TASK_TITLE && (task.status == "TODO" || task.status == "IN_PROGRESS")
  }

  function ActiveOf(tasks: map<nat, Task>, ids: seq<nat>): seq<nat> {
    if |ids| == 0 then []
    else
      var last := ids[|ids| - 1];
      ActiveOf(tasks, ids[..|ids| - 1]) + if last in tasks && Active(tasks[last]) then [last] else []
  }

  function Pairs(leadId: nat, taskIds: seq<nat>): seq<(nat, nat)> {
    seq(|taskIds|, i requires 0 <= i < |taskIds| => (leadId, taskIds[i]))
  }

  /** The active outreach tasks over a list of leads, each with its lead. */
  function ActivePairs(tasks: map<nat, Task>, bound: nat, leadIds: seq<nat>): seq<(nat, nat)> {
    if |leadIds| == 0 then []
    else
      var last := leadIds[|leadIds| - 1];
      ActivePairs(tasks, bound, leadIds[..|leadIds| - 1]) + Pairs(last, ActiveOf(tasks, TasksOf(tasks, bound, last)))
  }

  function CompanyPairs(s: Crm, companyId: nat): seq<(nat, nat)> {
    ActivePairs(s.tasks, s.nextTask, ScopedLeads(s.leads, s.nextLead, companyId))
  }

  /** A task that may be reused: active matching tasks have no due date. */
  predicate Reusable(tasks: map<nat, Task>, taskId: nat) {
    taskId > 0 && taskId in tasks && tasks[taskId].dueAt.None?
  }

  predicate AllReusable(tasks: map<nat, Task>, pairs: seq<(nat, nat)>) {
    forall i :: 0 <= i < |pairs| ==> Reusable(tasks, pairs[i].1)
  }

  predicate PositiveLeads(leadIds: seq<nat>) {
    forall i :: 0 <= i < |leadIds| ==> leadIds[i] > 0
  }

  function NewOutreachTask(leadId: nat): Task {
    Task(leadId, TASK_TITLE, Some(TASK_DESCRIPTION), "TODO", None)
  }

  function AddTask(s: Crm, leadId: nat): Crm {
    s.(tasks := s.tasks[s.nextTask := NewOutreachTask(leadId)], nextTask := s.nextTask + 1)
  }

  function AddLead(s: Crm, companyId: nat): Crm {
    s.(leads := s.leads[s.nextLead := Lead(companyId, None, "NEW", Some(LEAD_SOURCE), None)],
       nextLead := s.nextLead + 1)
  }

  function FindOrCreate(s: Crm, companyId: nat): Result<(Crm, Outreach), OutreachError> {
    var scoped := ScopedLeads(s.leads, s.nextLead, companyId);
    var active := CompanyPairs(s, companyId);
    if !PositiveLeads(scoped) || !AllReusable(s.tasks, active) || |active| > 1 then Err(Conflict)
    else if |active| == 1 then Ok((s, Outreach(active[0].0, active[0].1, false, false)))
    else
      var leadCreated := scoped == [];
      var withLead := if leadCreated then AddLead(s, companyId) else s;
      var leadId := if leadCreated then s.nextLead else scoped[0];
      if leadId == 0 || s.nextTask == 0 then Err(Conflict)
      else Ok((AddTask(withLead, leadId), Outreach(leadId, s.nextTask, leadCreated, true)))
  }

  /** The request, and what of the company's other rows it is checked against. */
  datatype OutreachInput = OutreachInput(projectId: nat, companyId: nat, recipient: string)

  function Complete(rules: Rules, projects: set<nat>, emails: map<nat, Option<string>>, s: Crm, data: OutreachInput):
    Result<(Crm, Outreach), OutreachError>
  {
    match rules.normalizeEmail(data.recipient)
    case Invalid => Err(InvalidInput)
    case Valid(None) => Err(InvalidInput)
    case Valid(Some(recipient)) =>
      if data.projectId !in projects then Err(ProjectNotFound)
      else if data.companyId !in s.companies
        || s.companies[data.companyId].projectId != data.projectId then Err(CompanyNotFound)
      else if data.companyId !in emails || emails[data.companyId].None? then Err(EmailNotFound)
      else match rules.normalizeEmail(emails[data.companyId].value)
        case Valid(Some(stored)) => if stored != recipient then Err(EmailConflict) else FindOrCreate(s, data.companyId)
        case _ => Err(Conflict)
  }

  class CompanyScopedOutreachCompletionService {
    const rules: Rules
    const session: CrmSession

    constructor (rules: Rules, session: CrmSession)
      ensures this.rules == rules && this.session == session
    {
      this.rules, this.session := rules, session;
    }

    /** One transaction: kept on success, rolled back on any error. */
    method Run(projects: set<nat>, emails: map<nat, Option<string>>, data: OutreachInput)
      returns (r: Result<Outreach, OutreachError>)
      modifies session
      ensures match Complete(rules, projects, emails, old(session.View()), data)
        case Err(error) => r == Err(error) && session.View() == old(session.View())
        case Ok((after, outreach)) => r == Ok(outreach) && session.View() == after
    {
      var recipient := rules.normalizeEmail(data.recipient);
      if recipient.Invalid? || recipient.value.None? {
        return Err(InvalidInput);
      }
      if data.projectId !in projects {
        return Err(ProjectNotFound);
      }
      if data.companyId !in session.companies || session.companies[data.companyId].projectId != data.projectId {
        return Err(CompanyNotFound);
      }
      if data.companyId !in emails || emails[data.companyId].None? {
        return Err(EmailNotFound);
      }
      var stored := rules.normalizeEmail(emails[data.companyId].value);
      if stored.Invalid? || stored.value.None? {
        return Err(Conflict);
      }
      if stored.value != recipient.value {
        return Err(EmailConflict);
      }
      var begin := session.View();
      r := FindOrCreateOutreach(data.companyId);
      if r.Err? {
        session.Rollback(begin);
      }
    }

    method FindOrCreateOutreach(companyId: nat) returns (r: Result<Outreach, OutreachError>)
      modifies session
      ensures match FindOrCreate(old(session.View()), companyId)
        case Err(error) => r == Err(error)
        case Ok((after, outreach)) => r == Ok(outreach) && session.View() == after
    {
      var scoped := ScopedLeads(session.leads, session.nextLead, companyId);
      var valid := ValidateLeads(scoped);
      if !valid {
        return Err(Conflict);
      }
      var ok, active := CollectActive(scoped);
      if !ok || |active| > 1 {
        return Err(Conflict);
      }
      if |active| == 1 {
        return Ok(Outreach(active[0].0, active[0].1, false, false));
      }
      r := CreateOutreach(companyId, scoped);
    }

    method ValidateLeads(scoped: seq<nat>) returns (ok: bool)
      ensures ok <==> PositiveLeads(scoped)
    {
      for i := 0 to |scoped|
        invariant forall k :: 0 <= k < i ==> scoped[k] > 0
      {
        if scoped[i] == 0 {
          return false;
        }
      }
      ok := true;
    }

    method CreateOutreach(companyId: nat, scoped: seq<nat>) returns (r: Result<Outreach, OutreachError>)
      modifies session
      ensures var leadCreated := scoped == [];
        var s := old(session.View());
        var leadId := if leadCreated then s.nextLead else scoped[0];
        if leadId == 0 || s.nextTask == 0 then r == Err(Conflict)
        else r == Ok(Outreach(leadId, s.nextTask, leadCreated, true))
             && session.View() == AddTask(if leadCreated then AddLead(s, companyId) else s, leadId)
    {
      var leadCreated := scoped == [];
      var leadId := if leadCreated then session.nextLead else scoped[0];
      if leadCreated {
        session.leads := session.leads[leadId := Lead(companyId, None, "NEW", Some(LEAD_SOURCE), None)];
        session.nextLead := leadId + 1;
      }
      var taskId := session.nextTask;
      session.tasks := session.tasks[taskId := NewOutreachTask(leadId)];
      session.nextTask := taskId + 1;
      r := if leadId == 0 || taskId == 0 then Err(Conflict) else Ok(Outreach(leadId, taskId, leadCreated, true));
    }

    /** Walks the tasks of every lead in turn, refusing an active one that may not be reused. */
    method CollectActive(scoped: seq<nat>) returns (ok: bool, active: seq<(nat, nat)>)
      ensures ok <==> AllReusable(session.tasks, ActivePairs(session.tasks, session.nextTask, scoped))
      ensures ok ==> active == ActivePairs(session.tasks, session.nextTask, scoped)
    {
      active := [];
      for i := 0 to |scoped|
        invariant active == ActivePairs(session.tasks, session.nextTask, scoped[..i])
          && AllReusable(session.tasks, active)
      {
        var fine, found := CollectTasks(TasksOf(session.tasks, session.nextTask, scoped[i]));
        assert scoped[..i + 1][..i] == scoped[..i];
        active := active + Pairs(scoped[i], found);
        if !fine {
          ActivePairsPrefix(session.tasks, session.nextTask, scoped, i + 1);
          ForbiddenPrefix(session.tasks, session.nextTask, scoped, i, found);
          return false, active;
        }
      }
      assert scoped[..|scoped|] == scoped;
      ok := true;
    }

    method CollectTasks(ids: seq<nat>) returns (ok: bool, found: seq<nat>)
      ensures found <= ActiveOf(session.tasks, ids)
      ensures ok ==> found == ActiveOf(session.tasks, ids) && forall k :: 0 <= k < |found| ==>
        Reusable(session.tasks, found[k])
      ensures !ok ==> found != [] && !Reusable(session.tasks, found[|found| - 1])
    {
      found := [];
      for j := 0 to |ids|
        invariant found == ActiveOf(session.tasks, ids[..j]) && forall k :: 0 <= k < |found| ==>
          Reusable(session.tasks, found[k])
      {
        assert ids[..j + 1][..j] == ids[..j];
        if ids[j] in session.tasks && Active(session.tasks[ids[j]]) {
          found := found + [ids[j]];
          if !Reusable(session.tasks, ids[j]) {
            ActiveOfPrefix(session.tasks, ids, j + 1);
            return false, found;
          }
        }
      }
      assert ids[..|ids|] == ids;
      ok := true;
    }
  }

  lemma {:induction false} ActiveOfPrefix(tasks: map<nat, Task>, ids: seq<nat>, n: nat)
    requires n <= |ids|
    ensures ActiveOf(tasks, ids[..n]) <= ActiveOf(tasks, ids)
    decreases |ids|
  {
    if n < |ids| {
      assert ids[..|ids| - 1][..n] == ids[..n];
      ActiveOfPrefix(tasks, ids[..|ids| - 1], n);
    } else {
      assert ids[..n] == ids;
    }
  }

  lemma {:induction false} ActivePairsPrefix(tasks: map<nat, Task>, bound: nat, leadIds: seq<nat>, n: nat)
    requires n <= |leadIds|
    ensures ActivePairs(tasks, bound, leadIds[..n]) <= ActivePairs(tasks, bound, leadIds)
    decreases |leadIds|
  {
    if n < |leadIds| {
      assert leadIds[..|leadIds| - 1][..n] == leadIds[..n];
      ActivePairsPrefix(tasks, bound, leadIds[..|leadIds| - 1], n);
    } else {
      assert leadIds[..n] == leadIds;
    }
  }

  /** One active task that may not be reused spoils the whole collection. */
  lemma ForbiddenPrefix(tasks: map<nat, Task>, bound: nat, scoped: seq<nat>, i: nat, found: seq<nat>)
    requires i < |scoped| && found <= ActiveOf(tasks, TasksOf(tasks, bound, scoped[i]))
    requires found != [] && !Reusable(tasks, found[|found| - 1])
    requires ActivePairs(tasks, bound, scoped[..i + 1]) <= ActivePairs(tasks, bound, scoped)
    ensures !AllReusable(tasks, ActivePairs(tasks, bound, scoped))
  {
    var before := ActivePairs(tasks, bound, scoped[..i]);
    assert scoped[..i + 1][..i] == scoped[..i];
    var whole := Pairs(scoped[i], ActiveOf(tasks, TasksOf(tasks, bound, scoped[i])));
    var upto := ActivePairs(tasks, bound, scoped[..i + 1]);
    assert upto == before + whole;
    var k := |before| + |found| - 1;
    assert upto[k] == whole[|found| - 1] && whole[|found| - 1].1 == found[|found| - 1];
    assert ActivePairs(tasks, bound, scoped)[k] == upto[k];
  }

  // ----- What a completion guarantees -----------------------------------------------------------------------------

  lemma {:induction false} ScopedAreListed(leads: map<nat, Lead>, bound: nat, companyId: nat)
    ensures var ids := ScopedLeads(leads, bound, companyId);
      && (forall id :: id in ids <==> id < bound && id in leads && CompanyScoped(leads[id], companyId))
      && (forall i, j :: 0 <= i < j < |ids| ==> ids[i] < ids[j])
  {
    if bound != 0 {
      ScopedAreListed(leads, bound - 1, companyId);
      var earlier := ScopedLeads(leads, bound - 1, companyId);
      assert forall i :: 0 <= i < |earlier| ==> earlier[i] in earlier;
    }
  }

  lemma {:induction false} ScopedBelow(leads: map<nat, Lead>, bound: nat, companyId: nat, id: nat, lead: Lead)
    requires bound <= id
    ensures ScopedLeads(leads[id := lead], bound, companyId) == ScopedLeads(leads, bound, companyId)
  {
    if bound != 0 {
      ScopedBelow(leads, bound - 1, companyId, id, lead);
    }
  }

  lemma {:induction false} ActiveOfUnchanged(tasks: map<nat, Task>, ids: seq<nat>, id: nat, task: Task)
    requires id !in ids
    ensures ActiveOf(tasks[id := task], ids) == ActiveOf(tasks, ids)
  {
    if |ids| != 0 {
      ActiveOfUnchanged(tasks, ids[..|ids| - 1], id, task);
      assert ids[|ids| - 1] in ids;
    }
  }

  /** The active tasks of a lead once the new task was added. */
  lemma ActiveAfterAdd(tasks: map<nat, Task>, next: nat, leadId: nat, target: nat)
    ensures ActiveOf(tasks[next := NewOutreachTask(target)],
                     TasksOf(tasks[next := NewOutreachTask(target)], next + 1, leadId))
         == ActiveOf(tasks, TasksOf(tasks, next, leadId)) + if leadId == target then [next] else []
  {
    var after := tasks[next := NewOutreachTask(target)];
    TasksBelow(tasks, next, leadId, next, NewOutreachTask(target));
    TasksListed(tasks, next, leadId);
    var ids := TasksOf(tasks, next, leadId);
    ActiveOfUnchanged(tasks, ids, next, NewOutreachTask(target));
    if leadId == target {
      assert (ids + [next])[..|ids|] == ids;
      assert TasksOf(after, next + 1, leadId) == ids + [next];
    } else {
      assert TasksOf(after, next + 1, leadId) == ids;
    }
  }

  lemma EmptyParts(a: seq<(nat, nat)>, b: seq<(nat, nat)>)
    requires a + b == []
    ensures a == [] && b == []
  {
    assert |a + b| == 0;
  }

  lemma PairsAreEmpty(leadId: nat, ids: seq<nat>)
    ensures Pairs(leadId, ids) == [] <==> ids == []
    ensures forall id :: Pairs(leadId, [id]) == [(leadId, id)]
  {
    assert |Pairs(leadId, ids)| == |ids|;
  }

  predicate AscendingIds(ids: seq<nat>) {
    forall i, j :: 0 <= i < j < |ids| ==> ids[i] < ids[j]
  }

  lemma ScopedAscend(leads: map<nat, Lead>, bound: nat, companyId: nat)
    ensures AscendingIds(ScopedLeads(leads, bound, companyId))
  {
    ScopedAreListed(leads, bound, companyId);
  }

  lemma {:induction false} PairsAfterAdd(tasks: map<nat, Task>, next: nat, leadIds: seq<nat>, target: nat)
    requires ActivePairs(tasks, next, leadIds) == [] && AscendingIds(leadIds)
    ensures ActivePairs(tasks[next := NewOutreachTask(target)], next + 1, leadIds)
      == if target in leadIds then [(target, next)] else []
  {
    if |leadIds| != 0 {
      var n := |leadIds| - 1;
      var front, last := leadIds[..n], leadIds[n];
      EmptyParts(ActivePairs(tasks, next, front), Pairs(last, ActiveOf(tasks, TasksOf(tasks, next, last))));
      PairsAfterAdd(tasks, next, front, target);
      LeadAfterAdd(tasks, next, last, target);
      assert leadIds == front + [last];
      assert target in leadIds <==> target in front || target == last;
    }
  }

  /** The pairs of a lead without an active task, once the new task was added. */
  lemma LeadAfterAdd(tasks: map<nat, Task>, next: nat, leadId: nat, target: nat)
    requires Pairs(leadId, ActiveOf(tasks, TasksOf(tasks, next, leadId))) == []
    ensures var after := tasks[next := NewOutreachTask(target)];
      Pairs(leadId, ActiveOf(after, TasksOf(after, next + 1, leadId))) ==
      if leadId == target then [(target, next)] else []
  {
    PairsAreEmpty(leadId, ActiveOf(tasks, TasksOf(tasks, next, leadId)));
    ActiveAfterAdd(tasks, next, leadId, target);
    PairsAreEmpty(leadId, []);
  }

  lemma {:induction false} ActiveAreTasks(tasks: map<nat, Task>, ids: seq<nat>)
    ensures forall id :: id in ActiveOf(tasks, ids) ==> id in ids && id in tasks && Active(tasks[id])
  {
    if |ids| != 0 {
      ActiveAreTasks(tasks, ids[..|ids| - 1]);
      assert ids == ids[..|ids| - 1] + [ids[|ids| - 1]];
    }
  }

  lemma {:induction false} PairsAreTasks(tasks: map<nat, Task>, bound: nat, leadIds: seq<nat>)
    ensures forall p :: p in ActivePairs(tasks, bound, leadIds) ==>
      p.0 in leadIds && p.1 in tasks && Active(tasks[p.1]) && tasks[p.1].leadId == p.0
  {
    if |leadIds| != 0 {
      var n := |leadIds| - 1;
      PairsAreTasks(tasks, bound, leadIds[..n]);
      var ids := TasksOf(tasks, bound, leadIds[n]);
      ActiveAreTasks(tasks, ids);
      TasksListed(tasks, bound, leadIds[n]);
      assert leadIds == leadIds[..n] + [leadIds[n]];
      forall p | p in Pairs(leadIds[n], ActiveOf(tasks, ids))
        ensures p.0 == leadIds[n] && p.1 in ActiveOf(tasks, ids)
      {
      }
    }
  }

  lemma KeyedRows(s: Crm, companyId: nat)
    requires Keyed(s)
    ensures PositiveLeads(ScopedLeads(s.leads, s.nextLead, companyId))
    ensures forall p :: p in CompanyPairs(s, companyId) ==> p.1 in s.tasks && p.1 > 0
  {
    var scoped := ScopedLeads(s.leads, s.nextLead, companyId);
    ScopedAreListed(s.leads, s.nextLead, companyId);
    assert forall i :: 0 <= i < |scoped| ==> scoped[i] in scoped;
    PairsAreTasks(s.tasks, s.nextTask, scoped);
  }

  /**
   A completion over sound rows fails exactly when two or more active outreach tasks exist over the company's
   leads, or the only one has a due date.
   */
  lemma FailsExactlyWhen(s: Crm, companyId: nat)
    requires Keyed(s)
    ensures var active := CompanyPairs(s, companyId);
      FindOrCreate(s, companyId).Err? <==>
        |active| > 1 || (|active| == 1 && active[0].1 in s.tasks && s.tasks[active[0].1].dueAt.Some?)
  {
    KeyedRows(s, companyId);
    var active := CompanyPairs(s, companyId);
    if |active| == 1 {
      assert active[0] in active;
    }
  }

  lemma {:induction false} NoTasksOfFreshLead(tasks: map<nat, Task>, bound: nat, leadId: nat)
    requires forall id :: id in tasks ==> tasks[id].leadId < leadId
    ensures TasksOf(tasks, bound, leadId) == []
  {
    if bound != 0 {
      NoTasksOfFreshLead(tasks, bound - 1, leadId);
    }
  }

  /** A newly created lead becomes the only company-scoped one, and has no active task yet. */
  lemma FreshLead(s: Crm, companyId: nat)
    requires Keyed(s) && ScopedLeads(s.leads, s.nextLead, companyId) == []
    ensures ScopedLeads(AddLead(s, companyId).leads, s.nextLead + 1, companyId) == [s.nextLead]
    ensures ActivePairs(s.tasks, s.nextTask, [s.nextLead]) == []
  {
    ScopedBelow(s.leads, s.nextLead, companyId, s.nextLead, Lead(companyId, None, "NEW", Some(LEAD_SOURCE), None));
    NoTasksOfFreshLead(s.tasks, s.nextTask, s.nextLead);
    assert [s.nextLead][..0] == [];
    PairsAreEmpty(s.nextLead, ActiveOf(s.tasks, []));
  }

  /** Where a completion that finds no active task puts a new one. */
  function Creates(s: Crm, companyId: nat): (Crm, nat) {
    var scoped := ScopedLeads(s.leads, s.nextLead, companyId);
    if scoped == [] then (AddTask(AddLead(s, companyId), s.nextLead), s.nextLead)
    else (AddTask(s, scoped[0]), scoped[0])
  }

  lemma Outcomes(s: Crm, companyId: nat)
    requires FindOrCreate(s, companyId).Ok?
    ensures var (after, o) := FindOrCreate(s, companyId).value;
      if o.taskCreated then CompanyPairs(s, companyId) == [] && o.taskId == s.nextTask
        && (after, o.leadId) == Creates(s, companyId)
      else after == s && CompanyPairs(s, companyId) == [(o.leadId, o.taskId)] && Reusable(s.tasks, o.taskId)
  {
  }

  /** Over any leads without an active task, the pairs once one of them was given the new task. */
  lemma PairsOnLead(s: Crm, scoped: seq<nat>, leadId: nat)
    requires ActivePairs(s.tasks, s.nextTask, scoped) == [] && AscendingIds(scoped) && leadId in scoped
    ensures ActivePairs(AddTask(s, leadId).tasks, s.nextTask + 1, scoped) == [(leadId, s.nextTask)]
  {
    PairsAfterAdd(s.tasks, s.nextTask, scoped, leadId);
  }

  lemma PairsOnNewLead(s: Crm, companyId: nat, withLead: Crm, scoped: seq<nat>)
    requires Keyed(s) && ScopedLeads(s.leads, s.nextLead, companyId) == []
    requires withLead == AddLead(s, companyId) && scoped == ScopedLeads(withLead.leads, withLead.nextLead, companyId)
    ensures CompanyPairs(AddTask(withLead, s.nextLead), companyId) == [(s.nextLead, s.nextTask)]
  {
    NewLeadIsScoped(s, companyId, withLead, scoped);
    ScopedAscend(withLead.leads, withLead.nextLead, companyId);
    PairsOnLead(withLead, scoped, s.nextLead);
  }

  lemma NewLeadIsScoped(s: Crm, companyId: nat, withLead: Crm, scoped: seq<nat>)
    requires Keyed(s) && ScopedLeads(s.leads, s.nextLead, companyId) == []
    requires withLead == AddLead(s, companyId) && scoped == ScopedLeads(withLead.leads, withLead.nextLead, companyId)
    ensures s.nextLead in scoped && ActivePairs(withLead.tasks, withLead.nextTask, scoped) == []
  {
    FreshLead(s, companyId);
  }

  lemma PairsOnLowestLead(s: Crm, companyId: nat, scoped: seq<nat>)
    requires scoped == ScopedLeads(s.leads, s.nextLead, companyId) && scoped != [] && CompanyPairs(s, companyId) == []
    ensures CompanyPairs(AddTask(s, scoped[0]), companyId) == [(scoped[0], s.nextTask)]
  {
    ScopedAscend(s.leads, s.nextLead, companyId);
    PairsOnLead(s, scoped, scoped[0]);
  }

  lemma CreatedPairs(s: Crm, companyId: nat)
    requires Keyed(s) && CompanyPairs(s, companyId) == []
    ensures var (after, leadId) := Creates(s, companyId);
      CompanyPairs(after, companyId) == [(leadId, s.nextTask)]
  {
    var scoped := ScopedLeads(s.leads, s.nextLead, companyId);
    if scoped == [] {
      var withLead := AddLead(s, companyId);
      PairsOnNewLead(s, companyId, withLead, ScopedLeads(withLead.leads, withLead.nextLead, companyId));
    } else {
      PairsOnLowestLead(s, companyId, scoped);
    }
  }

  lemma CreatedLeadIsLowest(s: Crm, companyId: nat)
    requires Keyed(s)
    ensures var (after, leadId) := Creates(s, companyId);
      && Keyed(after) && after.tasks == s.tasks[s.nextTask := NewOutreachTask(leadId)]
      && leadId in after.leads && CompanyScoped(after.leads[leadId], companyId)
      && forall id :: id in after.leads && CompanyScoped(after.leads[id], companyId) ==> leadId <= id
  {
    var scoped := ScopedLeads(s.leads, s.nextLead, companyId);
    ScopedAreListed(s.leads, s.nextLead, companyId);
    if scoped != [] {
      assert scoped[0] in scoped;
      forall id | id in s.leads && CompanyScoped(s.leads[id], companyId)
        ensures scoped[0] <= id
      {
        assert id in scoped;
      }
    }
  }

  /**
   A completion ends with exactly one active outreach task over the company's company-scoped leads, the one it
   reports, and a new task goes to the company-scoped lead with the lowest id.
   */
  lemma EndsWithOneActiveTask(s: Crm, companyId: nat)
    requires Keyed(s) && FindOrCreate(s, companyId).Ok?
    ensures var (after, o) := FindOrCreate(s, companyId).value;
      && CompanyPairs(after, companyId) == [(o.leadId, o.taskId)] && Reusable(after.tasks, o.taskId) && Keyed(after)
      && (if o.taskCreated then
            && o.taskId !in s.tasks && after.tasks == s.tasks[o.taskId := NewOutreachTask(o.leadId)]
            && forall id :: id in after.leads && CompanyScoped(after.leads[id], companyId) ==> o.leadId <= id
          else after == s)
  {
    Outcomes(s, companyId);
    if FindOrCreate(s, companyId).value.1.taskCreated {
      CreatedPairs(s, companyId);
      CreatedLeadIsLowest(s, companyId);
    }
  }

  lemma OneActiveIsReused(s: Crm, companyId: nat, leadId: nat, taskId: nat)
    requires Keyed(s) && CompanyPairs(s, companyId) == [(leadId, taskId)] && Reusable(s.tasks, taskId)
    ensures FindOrCreate(s, companyId) == Ok((s, Outreach(leadId, taskId, false, false)))
  {
    KeyedRows(s, companyId);
  }

  /** A repeat returns the same lead and task, reuses both and changes nothing. */
  lemma RepeatReuses(s: Crm, companyId: nat)
    requires Keyed(s) && FindOrCreate(s, companyId).Ok?
    ensures var (after, o) := FindOrCreate(s, companyId).value;
      FindOrCreate(after, companyId) == Ok((after, Outreach(o.leadId, o.taskId, false, false)))
  {
    EndsWithOneActiveTask(s, companyId);
    var (after, o) := FindOrCreate(s, companyId).value;
    OneActiveIsReused(after, companyId, o.leadId, o.taskId);
  }
}