/** A company-scoped completion by the rows: when a request is answered, which tasks are active, what is created. */
module OutreachOutcomes {
  import opened Common
  import opened ContactApply
  import opened OutreachCompletion

  /**
   An outreach task of a company that is still to be done: its lead is of the company and names no contact, and it is
   open under the one title.
   */
  predicate OpenOutreach(s: Crm, companyId: nat, leadId: nat, taskId: nat) {
    && leadId in s.leads && s.leads[leadId].companyId == companyId && s.leads[leadId].contactId == None
    && taskId in s.tasks && s.tasks[taskId].leadId == leadId
    && s.tasks[taskId].title == "Prepare personalized company outreach email"
    && (s.tasks[taskId].status == "TODO" || s.tasks[taskId].status == "IN_PROGRESS")
  }

  lemma {:induction false} ActiveAreTheActive(tasks: map<nat, Task>, ids: seq<nat>)
    ensures forall id :: id in ActiveOf(tasks, ids) <==> id in ids && id in tasks && Active(tasks[id])
  {
    if |ids| != 0 {
      var n := |ids| - 1;
      ActiveAreTheActive(tasks, ids[..n]);
      assert ids == ids[..n] + [ids[n]];
    }
  }

  lemma {:induction false} PairsAreTheActive(tasks: map<nat, Task>, bound: nat, leadIds: seq<nat>)
    ensures forall leadId: nat, taskId: nat :: (leadId, taskId) in ActivePairs(tasks, bound, leadIds) <==>
      && leadId in leadIds && taskId < bound && taskId in tasks && tasks[taskId].leadId == leadId
      && Active(tasks[taskId])
  {
    if |leadIds| != 0 {
      var n := |leadIds| - 1;
      var ids := TasksOf(tasks, bound, leadIds[n]);
      PairsAreTheActive(tasks, bound, leadIds[..n]);
      ActiveAreTheActive(tasks, ids);
      TasksListed(tasks, bound, leadIds[n]);
      assert leadIds == leadIds[..n] + [leadIds[n]];
      PairsOfLead(leadIds[n], ActiveOf(tasks, ids));
    }
  }

  lemma PairsOfLead(leadId: nat, ids: seq<nat>)
    ensures forall a, b :: (a, b) in Pairs(leadId, ids) <==> a == leadId && b in ids
  {
    forall b | b in ids
      ensures (leadId, b) in Pairs(leadId, ids)
    {
      var i :| 0 <= i < |ids| && ids[i] == b;
      assert Pairs(leadId, ids)[i] == (leadId, b);
    }
  }

  /** The pairs a completion collects are the open outreach tasks of the company, each with its lead. */
  lemma PairsAreTheOpen(s: Crm, companyId: nat, leadId: nat, taskId: nat)
    requires Keyed(s)
    ensures (leadId, taskId) in CompanyPairs(s, companyId) <==> OpenOutreach(s, companyId, leadId, taskId)
  {
    ScopedAreListed(s.leads, s.nextLead, companyId);
    PairsAreTheActive(s.tasks, s.nextTask, ScopedLeads(s.leads, s.nextLead, companyId));
  }

  lemma OpenAreThePairs(s: Crm, companyId: nat, pairs: seq<(nat, nat)>)
    requires Keyed(s) && CompanyPairs(s, companyId) == pairs
    ensures forall leadId: nat, taskId: nat :: OpenOutreach(s, companyId, leadId, taskId) <==> (leadId, taskId) in pairs
  {
    forall leadId: nat, taskId: nat
      ensures OpenOutreach(s, companyId, leadId, taskId) <==> (leadId, taskId) in pairs
    {
      PairsAreTheOpen(s, companyId, leadId, taskId);
    }
  }

  /** The rows a completion creates, a lead only if the company had none without a contact. */
  lemma CreatedRows(s: Crm, companyId: nat)
    requires Keyed(s) && FindOrCreate(s, companyId).Ok?
    ensures var (after, o) := FindOrCreate(s, companyId).value;
      && (!o.taskCreated ==> after == s && !o.leadCreated)
      && (o.taskCreated ==>
          after.tasks == s.tasks[o.taskId := Task(
            o.leadId, "Prepare personalized company outreach email",
            Some("Prepare a personalized manual outreach email for the company recipient."), "TODO", None)])
      && (o.leadCreated ==>
          && (forall id :: id in s.leads ==> !(s.leads[id].companyId == companyId && s.leads[id].contactId == None))
          && after.leads == s.leads[o.leadId := Lead(companyId, None, "NEW", Some("COMPANY_SCOPED_OUTREACH"), None)])
      && (!o.leadCreated ==> after.leads == s.leads)
      && after == s.(leads := after.leads, nextLead := after.nextLead, tasks := after.tasks, nextTask := after.nextTask)
  {
    ScopedAreListed(s.leads, s.nextLead, companyId);
  }

  /**
   A completion that returns leaves exactly one open outreach task of the company, the one it reports, without a due
   date, and creates one only if there was none.
   */
  lemma OneOpenOutreach(s: Crm, companyId: nat)
    requires Keyed(s) && FindOrCreate(s, companyId).Ok?
    ensures var (after, o) := FindOrCreate(s, companyId).value;
      && (forall leadId: nat, taskId: nat ::
          OpenOutreach(after, companyId, leadId, taskId) <==> leadId == o.leadId && taskId == o.taskId)
      && o.taskId in after.tasks && after.tasks[o.taskId].dueAt == None
      && (o.taskCreated ==> forall leadId: nat, taskId: nat :: !OpenOutreach(s, companyId, leadId, taskId))
  {
    var (after, o) := FindOrCreate(s, companyId).value;
    EndsWithOneActiveTask(s, companyId);
    OpenAreThePairs(after, companyId, [(o.leadId, o.taskId)]);
    Outcomes(s, companyId);
    if o.taskCreated {
      OpenAreThePairs(s, companyId, []);
    }
  }

  /**
   A request is answered exactly when its recipient and the stored address of the company, which is of the project,
   normalise to one address, and the rows allow it; only then are the tables touched.
   */
  lemma AnsweredExactlyWhen(rules: Rules, projects: set<nat>, emails: map<nat, Option<string>>, s: Crm,
                            data: OutreachInput)
    ensures Complete(rules, projects, emails, s, data).Ok? <==>
      && data.projectId in projects && data.companyId in s.companies
      && s.companies[data.companyId].projectId == data.projectId
      && data.companyId in emails && emails[data.companyId].Some?
      && rules.normalizeEmail(data.recipient).Valid? && rules.normalizeEmail(data.recipient).value.Some?
      && rules.normalizeEmail(emails[data.companyId].value) == rules.normalizeEmail(data.recipient)
      && FindOrCreate(s, data.companyId).Ok?
    ensures Complete(rules, projects, emails, s, data).Ok? ==>
      Complete(rules, projects, emails, s, data) == FindOrCreate(s, data.companyId)
  {
  }
}
