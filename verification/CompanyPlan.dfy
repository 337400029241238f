/** The company plan after its discovery was committed: select, suppress a request decided before, decide, report. */
module CompanyPlan {
  import opened Common
  import opened Platform
  import opened DiscoveryTables
  import opened SearchProfileDiscovery
  import opened StagingOrchestration
  import opened CandidateLifecycle
  import opened CompanySelection
  import opened RunMembership

  datatype PlanInput = PlanInput(projectId: nat, goal: string, offset: nat, excluded: set<string>,
                                 includePromoted: bool)

  datatype PlanResult = PlanResult(
    runId: nat, staged: nat, eligible: nat, decision: Option<Decision>, selectedCandidate: Option<nat>,
    existingCompany: Option<nat>, fingerprint: Option<string>, suppressed: bool, decisionCalls: nat,
    candidateIds: seq<nat>)

  datatype PlanError = SelectionFailed | DecisionFailed | BindingFailed | ResultRefused

  /** The decision provider: a request is answered or the call fails; `fingerprint` hashes a request. */
  datatype DecisionBoundary = DecisionBoundary(decide: Request -> Option<Decision>, fingerprint: Request -> string,
                                               size: Request -> nat)

  predicate ValidDecision(d: Decision) {
    d.Select? ==> 1 <= d.index <= 5
  }

  /** The alignment rules of the plan result. */
  predicate ValidPlanResult(r: PlanResult) {
    && r.runId > 0 && r.eligible <= 5 && r.eligible <= r.staged && r.decisionCalls <= 1
    && (r.decisionCalls == 0 ==> r.decision.None? && r.selectedCandidate.None?)
    && (r.decisionCalls == 1 ==> r.decision.Some? && ValidDecision(r.decision.value))
    && (r.decision == Some(NoSelection) ==> r.selectedCandidate.None?)
    && (r.decision.Some? && r.decision.value.Select? ==>
        r.selectedCandidate.Some? && r.selectedCandidate.value > 0 && r.decision.value.index <= r.eligible)
  }

  function BindingIds(x: SelectionInput): seq<nat> {
    seq(|x.bindings|, i requires 0 <= i < |x.bindings| => x.bindings[i].candidateId)
  }

  function NoDecision(runId: nat, staged: nat): PlanResult {
    PlanResult(runId, staged, 0, None, None, None, None, false, 0, [])
  }

  function Suppressed(runId: nat, staged: nat, x: SelectionInput, fingerprint: string): PlanResult {
    PlanResult(runId, staged, |x.bindings|, None, None, None, Some(fingerprint), true, 0, BindingIds(x))
  }

  function Validated(r: PlanResult): Result<PlanResult, PlanError> {
    if ValidPlanResult(r) then Ok(r) else Err(ResultRefused)
  }

  function Decide(s: Store, boundary: DecisionBoundary, runId: nat, staged: nat, includePromoted: bool,
                  x: SelectionInput):
    Result<PlanResult, PlanError>
  {
    var answer := boundary.decide(x.request);
    if answer.None? || !ValidDecision(answer.value) then Err(DecisionFailed)
    else
      match ResolveCandidate(boundary.size, x, answer.value)
      case Err(_) => Err(BindingFailed)
      case Ok(selected) =>
        match if includePromoted then ResolveExistingCompany(s, boundary.size, x, answer.value) else Ok(None)
        case Err(_) => Err(BindingFailed)
        case Ok(existing) =>
          Validated(PlanResult(runId, staged, |x.bindings|, answer, selected, existing,
                               Some(boundary.fingerprint(x.request)), false, 1, BindingIds(x)))
  }

  ghost function PlanSelection(s: Store, boundary: DecisionBoundary, runId: nat, staged: nat, data: PlanInput,
                               evidence: map<string, Evidence>): Result<PlanResult, PlanError>
  {
    match PrepareSelection(s, boundary.size, data.projectId, runId, data.goal, 5, data.includePromoted,
                           if data.includePromoted then evidence else map[])
    case Err(NoCandidates) => Validated(NoDecision(runId, staged))
    case Err(_) => Err(SelectionFailed)
    case Ok(x) =>
      var fingerprint := boundary.fingerprint(x.request);
      if fingerprint in data.excluded then Validated(Suppressed(runId, staged, x, fingerprint))
      else Decide(s, boundary, runId, staged, data.includePromoted, x)
  }

  /** The request a plan asks the decision provider about, by its fingerprint; whatever becomes of the answer. */
  ghost function AskedFingerprint(s: Store, boundary: DecisionBoundary, runId: nat, data: PlanInput,
                                  evidence: map<string, Evidence>):
    Option<string>
  {
    match PrepareSelection(s, boundary.size, data.projectId, runId, data.goal, 5, data.includePromoted,
                           if data.includePromoted then evidence else map[])
    case Err(_) => None
    case Ok(x) =>
      var fingerprint := boundary.fingerprint(x.request);
      if fingerprint in data.excluded then None else Some(fingerprint)
  }

  class AgentCompanyPlanService {
    const selection: AgentCompanySelectionService
    const boundary: DecisionBoundary
    var decisionCalls: nat

    constructor (selection: AgentCompanySelectionService, boundary: DecisionBoundary)
      requires selection.size == boundary.size
      ensures this.selection == selection && this.boundary == boundary && decisionCalls == 0
    {
      this.selection, this.boundary, decisionCalls := selection, boundary, 0;
    }

    /** The part of a plan that follows the committed staging run; `decisionCalls` counts the decisions asked for. */
    method SelectAndDecide(runId: nat, staged: nat, data: PlanInput, evidence: map<string, Evidence>)
      returns (r: Result<PlanResult, PlanError>)
      requires selection.size == boundary.size
      modifies this`decisionCalls
      ensures r == PlanSelection(selection.session.View(), boundary, runId, staged, data, evidence)
      ensures var asked := AskedFingerprint(selection.session.View(), boundary, runId, data, evidence);
        decisionCalls == old(decisionCalls) + if asked.Some? then 1 else 0
      ensures r.Ok? ==> decisionCalls == old(decisionCalls) + r.value.decisionCalls
    {
      var prepared := selection.Prepare(data.projectId, runId, data.goal, 5, data.includePromoted,
                                        if data.includePromoted then evidence else map[]);
      if prepared.Err? {
        return if prepared.error == NoCandidates then Validated(NoDecision(runId, staged)) else Err(SelectionFailed);
      }
      var x := prepared.value;
      var fingerprint := boundary.fingerprint(x.request);
      if fingerprint in data.excluded {
        return Validated(Suppressed(runId, staged, x, fingerprint));
      }
      decisionCalls := decisionCalls + 1;
      var answer := boundary.decide(x.request);
      if answer.None? || !ValidDecision(answer.value) {
        return Err(DecisionFailed);
      }
      var selected := ResolveCandidate(boundary.size, x, answer.value);
      if selected.Err? {
        return Err(BindingFailed);
      }
      var existing: Option<nat> := None;
      if data.includePromoted {
        var resolved := ResolveExistingCompany(selection.session.View(), boundary.size, x, answer.value);
        if resolved.Err? {
          return Err(BindingFailed);
        }
        existing := resolved.value;
      }
      r := Validated(
        PlanResult(runId, staged, |x.bindings|, answer, selected.value, existing, Some(fingerprint), false, 1,
                   BindingIds(x)));
    }
  }

  /**
   A request already decided is answered without a decision call, and a decision call is only ever made for a
   request whose fingerprint is reported and was not excluded.
   */
  lemma DecidedRequestsAreSuppressed(s: Store, boundary: DecisionBoundary, runId: nat, staged: nat, data: PlanInput,
                                     evidence: map<string, Evidence>, r: PlanResult)
    requires PlanSelection(s, boundary, runId, staged, data, evidence) == Ok(r)
    ensures r.decisionCalls <= 1
    ensures r.decisionCalls == 1 <==> AskedFingerprint(s, boundary, runId, data, evidence).Some?
    ensures AskedFingerprint(s, boundary, runId, data, evidence).Some? ==>
      r.fingerprint == AskedFingerprint(s, boundary, runId, data, evidence)
    ensures r.decisionCalls == 1 <==> r.fingerprint.Some? && r.fingerprint.value !in data.excluded
    ensures r.suppressed <==> r.fingerprint.Some? && r.fingerprint.value in data.excluded
  {
  }

  /** What an answer selects: the id bound to its index. */
  predicate SelectsTheBound(r: PlanResult) {
    r.decision.Some? && r.decision.value.Select? ==>
      && 1 <= r.decision.value.index <= r.eligible == |r.candidateIds|
      && r.selectedCandidate == Some(r.candidateIds[r.decision.value.index - 1])
  }

  lemma DecisionsAlign(s: Store, boundary: DecisionBoundary, runId: nat, staged: nat, includePromoted: bool,
                       x: SelectionInput)
    requires runId > 0 && ValidSelection(x) && boundary.size(x.request) <= MAX_REQUEST_BYTES && |x.bindings| <= staged
    ensures var outcome := Decide(s, boundary, runId, staged, includePromoted, x);
      outcome != Err(ResultRefused) && (outcome.Ok? ==> SelectsTheBound(outcome.value))
  {
    var answer := boundary.decide(x.request);
    if answer.Some? && answer.value.Select? {
      ResolveFindsTheShown(boundary.size, x, answer.value.index, 0);
    }
  }

  /**
   With at least as many upserts staged as rows eligible, a plan result is never refused: the count check cannot
   fire, and every answer is refused by the binding or lies within the eligible count.
   */
  lemma PlanResultsAlign(s: Store, boundary: DecisionBoundary, runId: nat, staged: nat, data: PlanInput,
                         evidence: map<string, Evidence>)
    requires runId > 0 && |Eligible(s, data.projectId, runId, data.includePromoted)| <= staged
    ensures var outcome := PlanSelection(s, boundary, runId, staged, data, evidence);
      outcome != Err(ResultRefused) && (outcome.Ok? ==> SelectsTheBound(outcome.value))
  {
    var shown := if data.includePromoted then evidence else map[];
    var prepared := PrepareSelection(s, boundary.size, data.projectId, runId, data.goal, 5, data.includePromoted,
                                     shown);
    if prepared.Ok? {
      SelectionShowsTopK(s, boundary.size, data.projectId, runId, data.goal, 5, data.includePromoted, shown,
                         prepared.value);
      DecisionsAlign(s, boundary, runId, staged, data.includePromoted, prepared.value);
    }
  }

  /** A plan over a run that was just staged is never refused for its counts, whatever happened in between. */
  lemma StagedPlansAlign(t: Tables, profile: Profile, preview: QueryPreview, verdict: Verdict, s: Store,
                         report: RunReport, after: Store, later: seq<Step>, boundary: DecisionBoundary,
                         data: PlanInput, evidence: map<string, Evidence>)
    requires Inv(s) && StagePersisted(t, profile, preview, verdict, s) == Ok((report, after))
    requires UpsertsInto(later, s.nextRun) == 0 && data.projectId == profile.projectId
    ensures report.runId.Some?
    ensures PlanSelection(Trace(t, after, later), boundary, report.runId.value, report.upserts, data,
                          evidence) != Err(ResultRefused)
  {
    EligibleNeverExceedsStaged(t, profile, preview, verdict, s, report, after, later, data.includePromoted);
    StagedRunMembers(t, profile, preview, verdict, s, report, after);
    PlanResultsAlign(Trace(t, after, later), boundary, s.nextRun, report.upserts, data, evidence);
  }
}
