/**
 The candidate table as one machine: opening and closing runs, upserts, reviews, rejections, promotions and
 applies, in any order. A step that raises is rolled back and changes nothing.
 */
module CandidateLifecycle {
  import opened Common
  import opened Platform
  import opened StagingNormalization
  import opened DiscoveryTables
  import opened StagingDeduplication
  import opened CandidateReview
  import opened Companies
  import opened CandidatePromotion
  import opened CompanyApply

  datatype Step =
    | OpenRun(projectId: nat, profileId: Option<nat>, resultCount: nat, code: Option<ErrorCode>)
    | CloseRun(runId: nat, status: RunStatus, resultCount: nat, candidateCount: nat, code: Option<ErrorCode>,
               diagnostic: Option<Diagnostic>)
    | Upsert(projectId: nat, runId: nat, data: CandidateCreate)
    | MarkReviewed(projectId: nat, candidateId: nat)
    | Reject(projectId: nat, candidateId: nat)
    | Promotion(projectId: nat, candidateId: nat)
    | Application(input: ApplyInput)
    | AddCompany(projectId: nat, name: string, website: Option<string>, country: Option<string>)

  function Kept<E>(s: Store, r: Result<Store, E>): Store {
    match r case Ok(after) => after case Err(_) => s
  }

  function KeptFirst<R, E>(s: Store, r: Result<(Store, R), E>): Store {
    match r case Ok(after) => after.0 case Err(_) => s
  }

  function Next(t: Tables, s: Store, step: Step): Store {
    match step
    case OpenRun(projectId, profileId, resultCount, code) =>
      Kept(s, CreateRun(s, projectId, profileId, resultCount, code))
    case CloseRun(runId, status, resultCount, candidateCount, code, diagnostic) =>
      Kept(s, UpdateRun(s, runId, status, resultCount, candidateCount, code, diagnostic))
    case Upsert(projectId, runId, data) => KeptFirst(s, UpsertCandidate(t, s, projectId, runId, data))
    case MarkReviewed(projectId, candidateId) => KeptFirst(s, Transition(s, projectId, candidateId, Reviewed))
    case Reject(projectId, candidateId) => KeptFirst(s, Transition(s, projectId, candidateId, Rejected))
    case Promotion(projectId, candidateId) => KeptFirst(s, PromoteCandidate(t, s, projectId, candidateId))
    case Application(input) => KeptFirst(s, ApplyPlan(t, s, input))
    case AddCompany(projectId, name, website, country) =>
      if projectId in s.projects then CreateCompany(s, projectId, name, website, country) else s
  }

  function Trace(t: Tables, s: Store, steps: seq<Step>): Store {
    if |steps| == 0 then s else Next(t, Trace(t, s, steps[..|steps| - 1]), steps[|steps| - 1])
  }

  // ----- The invariant ------------------------------------------------------------------------------

  predicate RunOf(s: Store, runId: nat, projectId: nat) {
    0 < runId && runId in s.runs && s.runs[runId].projectId == projectId
  }

  /** A row is linked to a company of its own project exactly when it is PROMOTED. */
  predicate LinkIntact(s: Store, row: Candidate) {
    && (row.status == Promoted <==> row.promotedCompany.Some?)
    && (row.promotedCompany.Some? ==> UsableCompany(s, row.projectId, row.promotedCompany.value))
  }

  predicate RowIntact(s: Store, id: nat, row: Candidate) {
    && 0 < id < s.nextCandidate && row.projectId in s.projects
    && RunOf(s, row.firstSeenRun, row.projectId) && RunOf(s, row.lastSeenRun, row.projectId)
    && LinkIntact(s, row)
  }

  ghost predicate UniqueKeys(rows: map<nat, Candidate>) {
    forall a, b :: a in rows && b in rows && HasKey(rows[a], rows[b].projectId, rows[b].fields.identityKey) ==> a == b
  }

  ghost predicate Inv(s: Store) {
    && 0 < s.nextRun && 0 < s.nextCandidate && 0 < s.nextCompany
    && (forall id :: id in s.runs ==> 0 < id < s.nextRun && s.runs[id].projectId in s.projects)
    && (forall id :: id in s.companies ==> 0 < id < s.nextCompany)
    && (forall id :: id in s.candidates ==> RowIntact(s, id, s.candidates[id]))
    && UniqueKeys(s.candidates)
  }

  /** Every stored row is in normal form and its identity key is the key of its fields. */
  ghost predicate NormalRows(t: Tables, rows: map<nat, Candidate>) {
    forall id :: id in rows ==> NormalForm(t, rows[id].fields)
  }

  // ----- How a row may change -------------------------------------------------------------------------

  predicate FieldKept(before: Option<string>, after: Option<string>) {
    before.Some? ==> after == before
  }

  predicate FieldsKept(a: Normalized, b: Normalized) {
    && FieldKept(a.name, b.name) && FieldKept(a.normalizedName, b.normalizedName)
    && FieldKept(a.website, b.website) && FieldKept(a.websiteIdentity, b.websiteIdentity)
    && FieldKept(a.countryCode, b.countryCode) && a.identityKey == b.identityKey
  }

  predicate PositionKept(before: Option<nat>, after: Option<nat>) {
    before.Some? ==> after.Some? && after.value <= before.value
  }

  predicate RowEvolves(a: Candidate, b: Candidate) {
    && b.projectId == a.projectId && b.firstSeenRun == a.firstSeenRun && b.provider == a.provider
    && PositionKept(a.bestPosition, b.bestPosition)
    && FieldsKept(a.fields, b.fields)
    && (a.status != Discovered ==> b.fields == a.fields && b.status != Discovered)
    && (a.status == Promoted || a.status == Rejected ==> b.status == a.status && b.promotedCompany == a.promotedCompany)
  }

  ghost predicate RowsEvolve(a: Store, b: Store) {
    && (forall id :: id in a.candidates ==> id in b.candidates && RowEvolves(a.candidates[id], b.candidates[id]))
    && (forall id :: id in b.candidates && id !in a.candidates ==> a.nextCandidate <= id)
  }

  ghost predicate Evolves(a: Store, b: Store) {
    && a.projects == b.projects && a.profiles == b.profiles
    && a.nextRun <= b.nextRun && a.nextCandidate <= b.nextCandidate && a.nextCompany <= b.nextCompany
    && (forall id :: id in a.runs ==> id in b.runs && b.runs[id].projectId == a.runs[id].projectId)
    && (forall id :: id in a.companies ==> id in b.companies && b.companies[id] == a.companies[id])
    && RowsEvolve(a, b)
  }

  lemma EvolvesTransitive(a: Store, b: Store, c: Store)
    requires Evolves(a, b) && Evolves(b, c)
    ensures Evolves(a, c)
  {
    forall id | id in a.candidates
      ensures id in c.candidates && RowEvolves(a.candidates[id], c.candidates[id])
    {
      assert RowEvolves(a.candidates[id], b.candidates[id]) && RowEvolves(b.candidates[id], c.candidates[id]);
    }
  }

  // ----- One step ---------------------------------------------------------------------------------------

  lemma ReplaceRow(s: Store, id: nat, row: Candidate)
    requires Inv(s) && id in s.candidates
    requires RowEvolves(s.candidates[id], row) && RowIntact(s, id, row)
    ensures var after := s.(candidates := s.candidates[id := row]);
      Inv(after) && Evolves(s, after)
  {
    ReplacedRowEvolves(s, id, row);
    ReplacedRowIsIntact(s, id, row);
    KeysStayUnique(s.candidates, id, row);
  }

  lemma ReplacedRowEvolves(s: Store, id: nat, row: Candidate)
    requires id in s.candidates && RowEvolves(s.candidates[id], row)
    ensures Evolves(s, s.(candidates := s.candidates[id := row]))
  {
  }

  lemma ReplacedRowIsIntact(s: Store, id: nat, row: Candidate)
    requires Inv(s) && id in s.candidates && RowIntact(s, id, row)
    ensures var after := s.(candidates := s.candidates[id := row]);
      forall k :: k in after.candidates ==> RowIntact(after, k, after.candidates[k])
  {
    var after := s.(candidates := s.candidates[id := row]);
    forall k | k in after.candidates
      ensures RowIntact(after, k, after.candidates[k])
    {
      assert RowIntact(s, k, if k == id then row else s.candidates[k]);
    }
  }

  lemma KeysStayUnique(rows: map<nat, Candidate>, id: nat, row: Candidate)
    requires UniqueKeys(rows) && id in rows && HasKey(row, rows[id].projectId, rows[id].fields.identityKey)
    ensures UniqueKeys(rows[id := row])
  {
    var after := rows[id := row];
    forall a, b | a in after && b in after && HasKey(after[a], after[b].projectId, after[b].fields.identityKey)
      ensures a == b
    {
      assert HasKey(rows[a], rows[b].projectId, rows[b].fields.identityKey);
    }
  }

  lemma AddRow(s: Store, row: Candidate)
    requires Inv(s)
    requires forall id :: id in s.candidates ==> !HasKey(s.candidates[id], row.projectId, row.fields.identityKey)
    requires RowIntact(s.(nextCandidate := s.nextCandidate + 1), s.nextCandidate, row)
    ensures var after := s.(candidates := s.candidates[s.nextCandidate := row], nextCandidate := s.nextCandidate + 1);
      Inv(after) && Evolves(s, after)
  {
    var after := s.(candidates := s.candidates[s.nextCandidate := row], nextCandidate := s.nextCandidate + 1);
    forall id | id in after.candidates
      ensures RowIntact(after, id, after.candidates[id])
    {
      if id in s.candidates {
        assert RowIntact(s, id, s.candidates[id]);
      }
    }
    assert s.nextCandidate !in s.candidates;
    assert UniqueKeys(after.candidates);
    forall id | id in s.candidates
      ensures id in after.candidates && RowEvolves(s.candidates[id], after.candidates[id])
    {
      assert after.candidates[id] == s.candidates[id];
    }
  }

  lemma UpsertKeepsRows(t: Tables, s: Store, projectId: nat, runId: nat, data: CandidateCreate)
    requires Inv(s)
    ensures var after := KeptFirst(s, UpsertCandidate(t, s, projectId, runId, data));
      Inv(after) && Evolves(s, after)
  {
    var admitted := Admit(t, s, projectId, runId, data);
    if admitted.Ok? {
      StageKeepsRows(s, projectId, runId, data.provider, data.position, admitted.value);
    }
  }

  lemma StageKeepsRows(s: Store, projectId: nat, runId: nat, provider: string, position: Option<nat>, n: Normalized)
    requires Inv(s) && runId in s.runs && s.runs[runId].projectId == projectId
    ensures var after := Stage(s, projectId, runId, provider, position, n);
      Inv(after) && Evolves(s, after)
  {
    match FindByKey(s.candidates, s.nextCandidate, projectId, n.identityKey)
    case None => NewRowKeepsRows(s, projectId, runId, provider, position, n);
    case Some(id) => SeenRowKeepsRows(s, id, runId, position, n);
  }

  lemma NewRowKeepsRows(s: Store, projectId: nat, runId: nat, provider: string, position: Option<nat>, n: Normalized)
    requires Inv(s) && runId in s.runs && s.runs[runId].projectId == projectId
    requires FindByKey(s.candidates, s.nextCandidate, projectId, n.identityKey).None?
    ensures var row := NewCandidate(projectId, runId, provider, position, n);
      var after := s.(candidates := s.candidates[s.nextCandidate := row], nextCandidate := s.nextCandidate + 1);
      Inv(after) && Evolves(s, after)
  {
    forall id | id in s.candidates
      ensures id < s.nextCandidate
    {
      assert RowIntact(s, id, s.candidates[id]);
    }
    assert RunOf(s, runId, projectId);
    AddRow(s, NewCandidate(projectId, runId, provider, position, n));
  }

  lemma SeenRowKeepsRows(s: Store, id: nat, runId: nat, position: Option<nat>, n: Normalized)
    requires Inv(s) && id in s.candidates && runId in s.runs && s.runs[runId].projectId == s.candidates[id].projectId
    ensures var after := s.(candidates := s.candidates[id := SeenAgain(s.candidates[id], runId, position, n)]);
      Inv(after) && Evolves(s, after)
  {
    assert RowIntact(s, id, s.candidates[id]);
    assert RunOf(s, runId, s.candidates[id].projectId);
    ReplaceRow(s, id, SeenAgain(s.candidates[id], runId, position, n));
  }

  lemma TransitionKeepsRows(s: Store, projectId: nat, candidateId: nat, next: CandidateStatus)
    requires Inv(s)
    ensures var after := KeptFirst(s, Transition(s, projectId, candidateId, next));
      Inv(after) && Evolves(s, after)
  {
    if Transition(s, projectId, candidateId, next).Ok? {
      assert RowIntact(s, candidateId, s.candidates[candidateId]);
      ReplaceRow(s, candidateId, s.candidates[candidateId].(status := next));
    }
  }

  lemma CompanyKeepsRows(s: Store, projectId: nat, name: string, website: Option<string>, country: Option<string>)
    requires Inv(s)
    ensures var after := CreateCompany(s, projectId, name, website, country);
      Inv(after) && Evolves(s, after)
  {
    var after := CreateCompany(s, projectId, name, website, country);
    forall id | id in after.candidates
      ensures RowIntact(after, id, after.candidates[id])
    {
      assert RowIntact(s, id, s.candidates[id]);
    }
  }

  lemma LinkKeepsRows(s: Store, projectId: nat, candidateId: nat, companyId: nat)
    requires Inv(s) && companyId > 0
    ensures var after := Kept(s, LinkPromotedCompany(s, projectId, candidateId, companyId));
      Inv(after) && Evolves(s, after)
  {
    if LinkPromotedCompany(s, projectId, candidateId, companyId).Ok? {
      var row := s.candidates[candidateId];
      assert RowIntact(s, candidateId, row);
      ReplaceRow(s, candidateId, row.(status := Promoted, promotedCompany := Some(companyId)));
    }
  }

  lemma PromotionKeepsRows(t: Tables, s: Store, projectId: nat, candidateId: nat)
    requires Inv(s)
    ensures var after := KeptFirst(s, PromoteCandidate(t, s, projectId, candidateId));
      Inv(after) && Evolves(s, after)
  {
    var promoted := PromoteCandidate(t, s, projectId, candidateId);
    if promoted.Ok? && s.candidates[candidateId].status != Promoted {
      var n := s.candidates[candidateId].fields;
      CompanyKeepsRows(s, projectId, PromotionName(t, n.name).value, n.website, n.countryCode);
      var (placed, companyId) := FindOrCreateCompany(t, s, projectId, n);
      LinkKeepsRows(placed, projectId, candidateId, companyId);
      EvolvesTransitive(s, placed, promoted.value.0);
    }
  }

  /** The tables with the candidate reviewed if it was only DISCOVERED. */
  function ReviewedFirst(s: Store, projectId: nat, candidateId: nat): Store {
    if InProject(s, projectId, candidateId) && s.candidates[candidateId].status == Discovered then
      KeptFirst(s, Transition(s, projectId, candidateId, Reviewed))
    else s
  }

  /** What an apply that returns did to the tables: at most a review, then a promotion. */
  lemma ApplyIsReviewThenPromote(t: Tables, s: Store, data: ApplyInput)
    requires ApplyPlan(t, s, data).Ok?
    ensures var promoted := PromoteCandidate(t, ReviewedFirst(s, data.projectId, data.candidateId), data.projectId,
                                             data.candidateId);
      promoted.Ok? && promoted.value.0 == ApplyPlan(t, s, data).value.0
  {
  }

  lemma ReviewThenPromoteKeepsRows(t: Tables, s: Store, projectId: nat, candidateId: nat)
    requires Inv(s)
    ensures var reviewed := ReviewedFirst(s, projectId, candidateId);
      var after := KeptFirst(reviewed, PromoteCandidate(t, reviewed, projectId, candidateId));
      Inv(after) && Evolves(s, after)
  {
    TransitionKeepsRows(s, projectId, candidateId, Reviewed);
    LaterPromotionKeepsRows(t, s, ReviewedFirst(s, projectId, candidateId), projectId, candidateId);
  }

  lemma LaterPromotionKeepsRows(t: Tables, s: Store, reviewed: Store, projectId: nat, candidateId: nat)
    requires Inv(reviewed) && Evolves(s, reviewed)
    ensures var after := KeptFirst(reviewed, PromoteCandidate(t, reviewed, projectId, candidateId));
      Inv(after) && Evolves(s, after)
  {
    PromotionKeepsRows(t, reviewed, projectId, candidateId);
    EvolvesTransitive(s, reviewed, KeptFirst(reviewed, PromoteCandidate(t, reviewed, projectId, candidateId)));
  }

  lemma StepKeepsRows(t: Tables, s: Store, step: Step)
    requires Inv(s)
    ensures Inv(Next(t, s, step)) && Evolves(s, Next(t, s, step))
  {
    match step
    case OpenRun(projectId, profileId, resultCount, code) =>
      OpenRunKeepsRows(s, projectId, profileId, resultCount, code);
    case CloseRun(runId, status, resultCount, candidateCount, code, diagnostic) =>
      CloseRunKeepsRows(s, runId, status, resultCount, candidateCount, code, diagnostic);
    case Upsert(projectId, runId, data) => UpsertKeepsRows(t, s, projectId, runId, data);
    case MarkReviewed(projectId, candidateId) => TransitionKeepsRows(s, projectId, candidateId, Reviewed);
    case Reject(projectId, candidateId) => TransitionKeepsRows(s, projectId, candidateId, Rejected);
    case Promotion(projectId, candidateId) => PromotionKeepsRows(t, s, projectId, candidateId);
    case AddCompany(projectId, name, website, country) =>
      if projectId in s.projects {
        CompanyKeepsRows(s, projectId, name, website, country);
      }
    case Application(input) =>
      if ApplyPlan(t, s, input).Ok? {
        ApplyIsReviewThenPromote(t, s, input);
        ReviewThenPromoteKeepsRows(t, s, input.projectId, input.candidateId);
      }
  }

  lemma OpenRunKeepsRows(s: Store, projectId: nat, profileId: Option<nat>, resultCount: nat, code: Option<ErrorCode>)
    requires Inv(s)
    ensures var after := Kept(s, CreateRun(s, projectId, profileId, resultCount, code));
      Inv(after) && Evolves(s, after)
  {
    RunsMove(s, Kept(s, CreateRun(s, projectId, profileId, resultCount, code)));
  }

  lemma CloseRunKeepsRows(s: Store, runId: nat, status: RunStatus, resultCount: nat, candidateCount: nat,
                          code: Option<ErrorCode>, diagnostic: Option<Diagnostic>)
    requires Inv(s)
    ensures var after := Kept(s, UpdateRun(s, runId, status, resultCount, candidateCount, code, diagnostic));
      Inv(after) && Evolves(s, after)
  {
    RunsMove(s, Kept(s, UpdateRun(s, runId, status, resultCount, candidateCount, code, diagnostic)));
  }

  lemma RunsMove(s: Store, after: Store)
    requires Inv(s) && after == s.(runs := after.runs, nextRun := after.nextRun) && s.nextRun <= after.nextRun
    requires forall id :: id in s.runs ==> id in after.runs && after.runs[id].projectId == s.runs[id].projectId
    requires forall id :: id in after.runs ==> 0 < id < after.nextRun && after.runs[id].projectId in s.projects
    ensures Inv(after) && Evolves(s, after)
  {
    forall id | id in after.candidates
      ensures RowIntact(after, id, after.candidates[id])
    {
      assert RowIntact(s, id, s.candidates[id]);
    }
  }

  /**
   Whatever the order of the steps, the invariant is kept: one row per project and identity key, a company link
   exactly on PROMOTED rows and inside the project. And from any point to any later one every row evolves: its
   project, first run and provider are fixed, its best position never grows, no value it has is overwritten, and
   PROMOTED and REJECTED are never left.
   */
  lemma {:induction false} LifecycleIsSafe(t: Tables, s: Store, steps: seq<Step>)
    requires Inv(s)
    ensures Inv(Trace(t, s, steps)) && Evolves(s, Trace(t, s, steps))
  {
    if |steps| != 0 {
      var before := Trace(t, s, steps[..|steps| - 1]);
      LifecycleIsSafe(t, s, steps[..|steps| - 1]);
      StepKeepsRows(t, before, steps[|steps| - 1]);
      EvolvesTransitive(s, before, Trace(t, s, steps));
    }
  }

  /**
   An upsert touches one row at most, the one with the key of its data, and of a row past DISCOVERED it
   changes only the last run and the best position.
   */
  lemma UpsertTouchesOneRow(t: Tables, s: Store, projectId: nat, runId: nat, data: CandidateCreate, id: nat)
    requires Inv(s) && UpsertCandidate(t, s, projectId, runId, data).Ok?
    ensures var (after, result) := UpsertCandidate(t, s, projectId, runId, data).value;
      var n := NormalizeCandidateIdentity(t, data.name, data.website, data.countryCode).value;
      && result.candidateId in after.candidates
      && HasKey(after.candidates[result.candidateId], projectId, n.identityKey)
      && after.candidates[result.candidateId].lastSeenRun == runId
      && (id in s.candidates && id != result.candidateId ==> after.candidates[id] == s.candidates[id])
      && (result.isProtected ==>
          var (stored, seen) := (s.candidates[result.candidateId], after.candidates[result.candidateId]);
          seen == stored.(lastSeenRun := runId, bestPosition := seen.bestPosition))
  {
  }

  // ----- Stored fields stay in normal form -----------------------------------------------------------

  lemma UpsertKeepsNormalRows(t: Tables, s: Store, projectId: nat, runId: nat, data: CandidateCreate)
    requires t.Lawful() && NormalRows(t, s.candidates)
    ensures NormalRows(t, KeptFirst(s, UpsertCandidate(t, s, projectId, runId, data)).candidates)
  {
    if UpsertCandidate(t, s, projectId, runId, data).Ok? {
      AcceptedIsNormalForm(t, data.name, data.website, data.countryCode);
      var n := NormalizeCandidateIdentity(t, data.name, data.website, data.countryCode).value;
      StageKeepsNormalRows(t, s, projectId, runId, data.provider, data.position, n);
    }
  }

  lemma StageKeepsNormalRows(t: Tables, s: Store, projectId: nat, runId: nat, provider: string, position: Option<nat>,
                             n: Normalized)
    requires NormalForm(t, n) && NormalRows(t, s.candidates)
    ensures NormalRows(t, Stage(s, projectId, runId, provider, position, n).candidates)
  {
    match FindByKey(s.candidates, s.nextCandidate, projectId, n.identityKey)
    case None =>
    case Some(id) => FillKeepsNormalForm(t, s.candidates[id].fields, n);
  }

  /** Every row ever stored is in normal form, so its identity key is the key of the fields it shows. */
  lemma {:induction false} StoredRowsAreNormal(t: Tables, s: Store, steps: seq<Step>)
    requires t.Lawful() && NormalRows(t, s.candidates)
    ensures NormalRows(t, Trace(t, s, steps).candidates)
  {
    if |steps| != 0 {
      var before := Trace(t, s, steps[..|steps| - 1]);
      StoredRowsAreNormal(t, s, steps[..|steps| - 1]);
      var step := steps[|steps| - 1];
      if step.Upsert? {
        UpsertKeepsNormalRows(t, before, step.projectId, step.runId, step.data);
      } else {
        SightingsMoveOnlyByUpsert(t, before, step);
      }
    }
  }

  /** The same rows with the same fields and positions, seen by the same runs. */
  ghost predicate SameSightings(a: Store, b: Store) {
    && a.candidates.Keys == b.candidates.Keys
    && forall id :: id in a.candidates ==>
       && b.candidates[id].fields == a.candidates[id].fields && b.candidates[id].projectId == a.candidates[id].projectId
       && b.candidates[id].lastSeenRun == a.candidates[id].lastSeenRun
       && b.candidates[id].bestPosition == a.candidates[id].bestPosition
  }

  lemma TransitionKeepsSightings(s: Store, projectId: nat, candidateId: nat, next: CandidateStatus)
    ensures SameSightings(s, KeptFirst(s, Transition(s, projectId, candidateId, next)))
  {
  }

  lemma PromotionKeepsSightings(t: Tables, s: Store, projectId: nat, candidateId: nat)
    ensures SameSightings(s, KeptFirst(s, PromoteCandidate(t, s, projectId, candidateId)))
  {
    if PromoteCandidate(t, s, projectId, candidateId).Ok? && s.candidates[candidateId].status != Promoted {
      var (placed, companyId) := FindOrCreateCompany(t, s, projectId, s.candidates[candidateId].fields);
      assert placed.candidates == s.candidates;
      LinkKeepsSightings(placed, projectId, candidateId, companyId);
    }
  }

  lemma LinkKeepsSightings(s: Store, projectId: nat, candidateId: nat, companyId: nat)
    requires LinkPromotedCompany(s, projectId, candidateId, companyId).Ok?
    ensures SameSightings(s, LinkPromotedCompany(s, projectId, candidateId, companyId).value)
  {
  }

  /** Only an upsert changes what a row says or which run saw it last. */
  lemma SightingsMoveOnlyByUpsert(t: Tables, s: Store, step: Step)
    requires !step.Upsert?
    ensures SameSightings(s, Next(t, s, step))
  {
    match step
    case OpenRun(_, _, _, _) =>
    case CloseRun(_, _, _, _, _, _) =>
    case AddCompany(_, _, _, _) =>
    case MarkReviewed(projectId, candidateId) => TransitionKeepsSightings(s, projectId, candidateId, Reviewed);
    case Reject(projectId, candidateId) => TransitionKeepsSightings(s, projectId, candidateId, Rejected);
    case Promotion(projectId, candidateId) => PromotionKeepsSightings(t, s, projectId, candidateId);
    case Application(input) =>
      if ApplyPlan(t, s, input).Ok? {
        ApplyIsReviewThenPromote(t, s, input);
        TransitionKeepsSightings(s, input.projectId, input.candidateId, Reviewed);
        PromotionKeepsSightings(t, ReviewedFirst(s, input.projectId, input.candidateId), input.projectId,
                                input.candidateId);
      }
  }

  // ----- One company per hostname ---------------------------------------------------------------------

  ghost predicate HostsSafe(t: Tables, s: Store) {
    UniqueHosts(t, s.companies) && LinkedByHost(t, s)
  }

  lemma UpsertKeepsHosts(t: Tables, s: Store, projectId: nat, runId: nat, data: CandidateCreate)
    requires HostsSafe(t, s)
    ensures HostsSafe(t, KeptFirst(s, UpsertCandidate(t, s, projectId, runId, data)))
  {
  }

  lemma ReviewKeepsHosts(t: Tables, s: Store, projectId: nat, candidateId: nat, next: CandidateStatus)
    requires HostsSafe(t, s)
    ensures HostsSafe(t, KeptFirst(s, Transition(s, projectId, candidateId, next)))
  {
  }

  lemma StepKeepsHosts(t: Tables, s: Store, step: Step)
    requires Inv(s) && HostsSafe(t, s) && !step.AddCompany?
    ensures HostsSafe(t, Next(t, s, step))
  {
    match step
    case OpenRun(_, _, _, _) =>
    case CloseRun(_, _, _, _, _, _) =>
    case Upsert(projectId, runId, data) => UpsertKeepsHosts(t, s, projectId, runId, data);
    case MarkReviewed(projectId, candidateId) => ReviewKeepsHosts(t, s, projectId, candidateId, Reviewed);
    case Reject(projectId, candidateId) => ReviewKeepsHosts(t, s, projectId, candidateId, Rejected);
    case Promotion(projectId, candidateId) =>
      if PromoteCandidate(t, s, projectId, candidateId).Ok? {
        PromotionKeepsHosts(t, s, projectId, candidateId);
      }
    case Application(input) =>
      if ApplyPlan(t, s, input).Ok? {
        ApplyIsReviewThenPromote(t, s, input);
        var reviewed := ReviewedFirst(s, input.projectId, input.candidateId);
        ReviewKeepsHosts(t, s, input.projectId, input.candidateId, Reviewed);
        PromotionKeepsHosts(t, reviewed, input.projectId, input.candidateId);
      }
  }

  /**
   If hostnames are unique per project before any sequence of steps that adds companies only by promotion, they
   are unique after it, and promoted candidates of a project with one hostname are linked to one company.
   */
  lemma {:induction false} HostnamesStayUnique(t: Tables, s: Store, steps: seq<Step>)
    requires Inv(s) && HostsSafe(t, s)
    requires forall step :: step in steps ==> !step.AddCompany?
    ensures HostsSafe(t, Trace(t, s, steps))
    ensures var after := Trace(t, s, steps);
      forall a, b ::
        && a in after.candidates && b in after.candidates
        && after.candidates[a].status == Promoted && after.candidates[b].status == Promoted
        && after.candidates[a].projectId == after.candidates[b].projectId
        && after.candidates[a].fields.website.Some? && after.candidates[b].fields.website.Some?
        && t.websiteHostname(after.candidates[a].fields.website.value)
           == t.websiteHostname(after.candidates[b].fields.website.value)
        ==> after.candidates[a].promotedCompany == after.candidates[b].promotedCompany
  {
    if |steps| != 0 {
      var front := steps[..|steps| - 1];
      assert steps[|steps| - 1] in steps;
      HostnamesStayUnique(t, s, front);
      LifecycleIsSafe(t, s, front);
      StepKeepsHosts(t, Trace(t, s, front), steps[|steps| - 1]);
    }
  }
}
