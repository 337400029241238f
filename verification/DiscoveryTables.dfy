/**
 The tables behind discovery and what each repository operation makes of them. `Store` is the value of the
 tables; `Session` holds it in fields that the repositories reassign.
 */
module DiscoveryTables {
  import opened Common
  import opened Platform
  import opened StagingNormalization

  datatype CandidateStatus = Discovered | Reviewed | Promoted | Rejected

  datatype RunStatus = Pending | Succeeded | Partial | NotFound | Failed

  datatype Run = Run(projectId: nat, status: RunStatus, resultCount: nat, candidateCount: nat,
                     errorCode: Option<ErrorCode>, diagnostic: Option<Diagnostic>)

  datatype Candidate = Candidate(
    projectId: nat, firstSeenRun: nat, lastSeenRun: nat, provider: string,
    fields: Normalized, bestPosition: Option<nat>,
    status: CandidateStatus, promotedCompany: Option<nat>)

  datatype Company = Company(projectId: nat, name: string, website: Option<string>, country: Option<string>)

  datatype Store = Store(
    profiles: map<nat, nat>, projects: set<nat>,
    runs: map<nat, Run>, nextRun: nat,
    candidates: map<nat, Candidate>, nextCandidate: nat,
    companies: map<nat, Company>, nextCompany: nat)

  datatype CandidateCreate = CandidateCreate(
    projectId: nat, runId: nat, provider: string,
    name: Option<string>, website: Option<string>, countryCode: Option<string>, position: Option<nat>)

  datatype UpsertResult = UpsertResult(candidateId: nat, created: bool, updated: bool, isProtected: bool)

  datatype RepositoryError = MissingRow | InvalidValue

  // ----- create_run and update_run ----------------------------------------------------------------

  function CreateRun(s: Store, projectId: nat, profileId: Option<nat>, resultCount: nat, errorCode: Option<ErrorCode>):
    Result<Store, RepositoryError>
  {
    if projectId !in s.projects then Err(MissingRow)
    else if profileId.Some? && profileId.value !in s.profiles then Err(MissingRow)
    else if profileId.Some? && s.profiles[profileId.value] != projectId then Err(InvalidValue)
    else Ok(s.(runs := s.runs[s.nextRun := Run(projectId, Pending, resultCount, 0, errorCode, None)],
               nextRun := s.nextRun + 1))
  }

  /** The rule of a run update: a status code belongs to a client error. */
  predicate StorableDiagnostic(diagnostic: Option<Diagnostic>) {
    diagnostic.Some? && diagnostic.value.httpStatus.Some? ==> diagnostic.value.subtype.HttpClient?
  }

  function UpdateRun(s: Store, runId: nat, status: RunStatus, resultCount: nat, candidateCount: nat,
                     errorCode: Option<ErrorCode>, diagnostic: Option<Diagnostic>): Result<Store, RepositoryError>
  {
    if !StorableDiagnostic(diagnostic) then Err(InvalidValue)
    else if runId !in s.runs then Err(MissingRow)
    else
      var closed := Run(s.runs[runId].projectId, status, resultCount, candidateCount, errorCode, diagnostic);
      Ok(s.(runs := s.runs[runId := closed]))
  }

  // ----- upsert_candidate -------------------------------------------------------------------------

  predicate HasKey(row: Candidate, projectId: nat, key: string) {
    row.projectId == projectId && row.fields.identityKey == key
  }

  /** The row of a project with a given identity key; the unique constraint makes it the only one. */
  function FindByKey(rows: map<nat, Candidate>, bound: nat, projectId: nat, key: string): (found: Option<nat>)
    ensures found.Some? ==>
      && found.value in rows && found.value < bound && HasKey(rows[found.value], projectId, key)
      && forall id :: id in rows && id < found.value ==> !HasKey(rows[id], projectId, key)
    ensures found.None? ==> forall id :: id in rows && id < bound ==> !HasKey(rows[id], projectId, key)
  {
    if bound == 0 then None
    else
      var earlier := FindByKey(rows, bound - 1, projectId, key);
      if earlier.Some? then earlier
      else if bound - 1 in rows && HasKey(rows[bound - 1], projectId, key) then Some(bound - 1)
      else None
  }

  /** The smaller of two positions, a missing one never winning. */
  function BestPosition(current: Option<nat>, candidate: Option<nat>): Option<nat> {
    if candidate.None? then current
    else if current.None? then candidate
    else if candidate.value < current.value then candidate else current
  }

  /** Fields of `current`, each missing one taken from `incoming`; the identity key stays. */
  function FillMissingFields(current: Normalized, incoming: Normalized): Normalized {
    Normalized(
      Fill(current.name, incoming.name), Fill(current.normalizedName, incoming.normalizedName),
      Fill(current.website, incoming.website), Fill(current.websiteIdentity, incoming.websiteIdentity),
      Fill(current.countryCode, incoming.countryCode), current.identityKey)
  }

  function NewCandidate(projectId: nat, runId: nat, provider: string, position: Option<nat>, n: Normalized): Candidate {
    Candidate(projectId, runId, runId, provider, n, position, Discovered, None)
  }

  /** What a sighting changes in a stored row; a row past DISCOVERED keeps its fields. */
  function SeenAgain(row: Candidate, runId: nat, position: Option<nat>, n: Normalized): Candidate {
    row.(lastSeenRun := runId, bestPosition := BestPosition(row.bestPosition, position),
         fields := if row.status == Discovered then FillMissingFields(row.fields, n) else row.fields)
  }

  function Stage(s: Store, projectId: nat, runId: nat, provider: string, position: Option<nat>, n: Normalized): Store {
    match FindByKey(s.candidates, s.nextCandidate, projectId, n.identityKey)
    case Some(id) => s.(candidates := s.candidates[id := SeenAgain(s.candidates[id], runId, position, n)])
    case None =>
      s.(candidates := s.candidates[s.nextCandidate := NewCandidate(projectId, runId, provider, position, n)],
         nextCandidate := s.nextCandidate + 1)
  }

  function StageResult(s: Store, projectId: nat, runId: nat, position: Option<nat>, n: Normalized): UpsertResult {
    match FindByKey(s.candidates, s.nextCandidate, projectId, n.identityKey)
    case None => UpsertResult(s.nextCandidate, true, false, false)
    case Some(id) =>
      UpsertResult(id, false, SeenAgain(s.candidates[id], runId, position, n) != s.candidates[id],
                   s.candidates[id].status != Discovered)
  }

  /** The checks `upsert_candidate` makes before it touches a row. */
  function Admit(t: Tables, s: Store, projectId: nat, runId: nat, data: CandidateCreate):
    Result<Normalized, RepositoryError>
  {
    if data.projectId != projectId || data.runId != runId then Err(InvalidValue)
    else if runId !in s.runs then Err(MissingRow)
    else if s.runs[runId].projectId != projectId then Err(InvalidValue)
    else match NormalizeCandidateIdentity(t, data.name, data.website, data.countryCode)
      case Invalid => Err(InvalidValue)
      case Valid(n) => Ok(n)
  }

  function UpsertCandidate(t: Tables, s: Store, projectId: nat, runId: nat, data: CandidateCreate):
    Result<(Store, UpsertResult), RepositoryError>
  {
    match Admit(t, s, projectId, runId, data)
    case Err(error) => Err(error)
    case Ok(n) => Ok((Stage(s, projectId, runId, data.provider, data.position, n),
                      StageResult(s, projectId, runId, data.position, n)))
  }

  // ----- set_candidate_status and link_promoted_company --------------------------------------------

  predicate InProject(s: Store, projectId: nat, candidateId: nat) {
    candidateId in s.candidates && s.candidates[candidateId].projectId == projectId
  }

  function SetCandidateStatus(s: Store, projectId: nat, candidateId: nat, status: CandidateStatus):
    Result<Store, RepositoryError>
  {
    if status !in {Reviewed, Rejected} then Err(InvalidValue)
    else if !InProject(s, projectId, candidateId) then Err(MissingRow)
    else Ok(s.(candidates := s.candidates[candidateId := s.candidates[candidateId].(status := status)]))
  }

  function LinkPromotedCompany(s: Store, projectId: nat, candidateId: nat, companyId: nat):
    Result<Store, RepositoryError>
  {
    if !InProject(s, projectId, candidateId) then Err(MissingRow)
    else
      var row := s.candidates[candidateId];
      if row.status != Reviewed || row.promotedCompany.Some? then Err(InvalidValue)
      else if companyId !in s.companies || s.companies[companyId].projectId != projectId then Err(InvalidValue)
      else Ok(s.(candidates := s.candidates[candidateId :=
        row.(status := Promoted, promotedCompany := Some(companyId))]))
  }

  // ----- The session ----------------------------------------------------------------------

  class Session {
    var profiles: map<nat, nat>
    var projects: set<nat>
    var runs: map<nat, Run>
    var nextRun: nat
    var candidates: map<nat, Candidate>
    var nextCandidate: nat
    var companies: map<nat, Company>
    var nextCompany: nat

    constructor (s: Store)
      ensures View() == s
    {
      profiles, projects, runs, nextRun := s.profiles, s.projects, s.runs, s.nextRun;
      candidates, nextCandidate, companies, nextCompany := s.candidates, s.nextCandidate, s.companies, s.nextCompany;
    }

    function View(): Store
      reads this
    {
      Store(profiles, projects, runs, nextRun, candidates, nextCandidate, companies, nextCompany)
    }

    /** Puts back the tables as they were when the transaction began. */
    method Rollback(s: Store)
      modifies this
      ensures View() == s
    {
      profiles, projects, runs, nextRun := s.profiles, s.projects, s.runs, s.nextRun;
      candidates, nextCandidate, companies, nextCompany := s.candidates, s.nextCandidate, s.companies, s.nextCompany;
    }
  }
}
