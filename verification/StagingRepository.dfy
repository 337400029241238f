/** The staging repository: every method does to the session what the table operation of its name says. */
module StagingRepository {
  import opened Common
  import opened Platform
  import opened StagingNormalization
  import opened DiscoveryTables

  class CompanyDiscoveryStagingRepository {
    const tables: Tables
    const session: Session

    constructor (tables: Tables, session: Session)
      ensures this.tables == tables && this.session == session
    {
      this.tables, this.session := tables, session;
    }

    method CreateRun(projectId: nat, profileId: Option<nat>, resultCount: nat, errorCode: Option<ErrorCode>)
      returns (r: Result<nat, RepositoryError>)
      modifies session
      ensures var spec := DiscoveryTables.CreateRun(old(session.View()), projectId, profileId, resultCount, errorCode);
        && (spec.Ok? ==> r == Ok(old(session.nextRun)) && session.View() == spec.value)
        && (spec.Err? ==> r == Err(spec.error) && session.View() == old(session.View()))
    {
      if projectId !in session.projects {
        return Err(MissingRow);
      }
      if profileId.Some? {
        if profileId.value !in session.profiles {
          return Err(MissingRow);
        }
        if session.profiles[profileId.value] != projectId {
          return Err(InvalidValue);
        }
      }
      var run := session.nextRun;
      session.runs := session.runs[run := Run(projectId, Pending, resultCount, 0, errorCode, None)];
      session.nextRun := run + 1;
      r := Ok(run);
    }

    method UpdateRun(runId: nat, status: RunStatus, resultCount: nat, candidateCount: nat, errorCode: Option<ErrorCode>,
                     diagnostic: Option<Diagnostic>)
      returns (r: Result<(), RepositoryError>)
      modifies session
      ensures var spec := DiscoveryTables.UpdateRun(old(session.View()), runId, status, resultCount, candidateCount,
                                                    errorCode, diagnostic);
        && (spec.Ok? ==> r == Ok(()) && session.View() == spec.value)
        && (spec.Err? ==> r == Err(spec.error) && session.View() == old(session.View()))
    {
      if !StorableDiagnostic(diagnostic) {
        return Err(InvalidValue);
      }
      if runId !in session.runs {
        return Err(MissingRow);
      }
      var run := session.runs[runId];
      run := run.(status := status);
      run := run.(resultCount := resultCount);
      run := run.(candidateCount := candidateCount);
      run := run.(errorCode := errorCode);
      run := run.(diagnostic := diagnostic);
      session.runs := session.runs[runId := run];
      r := Ok(());
    }

    method UpsertCandidate(projectId: nat, runId: nat, data: CandidateCreate)
      returns (r: Result<UpsertResult, RepositoryError>)
      modifies session
      ensures var spec := DiscoveryTables.UpsertCandidate(tables, old(session.View()), projectId, runId, data);
        && (spec.Ok? ==> r == Ok(spec.value.1) && session.View() == spec.value.0)
        && (spec.Err? ==> r == Err(spec.error) && session.View() == old(session.View()))
    {
      if data.projectId != projectId || data.runId != runId {
        return Err(InvalidValue);
      }
      if runId !in session.runs {
        return Err(MissingRow);
      }
      if session.runs[runId].projectId != projectId {
        return Err(InvalidValue);
      }
      var normalized := NormalizeCandidateIdentity(tables, data.name, data.website, data.countryCode);
      if normalized.Invalid? {
        return Err(InvalidValue);
      }
      var n := normalized.value;
      var existing := FindByKey(session.candidates, session.nextCandidate, projectId, n.identityKey);
      if existing.None? {
        var id := session.nextCandidate;
        session.candidates := session.candidates[id := NewCandidate(projectId, runId, data.provider, data.position, n)];
        session.nextCandidate := id + 1;
        return Ok(UpsertResult(id, true, false, false));
      }
      var row, changed, isProtected := UpdateExisting(session.candidates[existing.value], runId, data.position, n);
      if changed {
        session.candidates := session.candidates[existing.value := row];
      }
      assert session.candidates == old(session.candidates)[existing.value := row];
      r := Ok(UpsertResult(existing.value, false, changed, isProtected));
    }

    /** Assigns the columns of a stored row one by one, keeping track of whether any of them changed. */
    static method UpdateExisting(existing: Candidate, runId: nat, position: Option<nat>, n: Normalized)
      returns (row: Candidate, changed: bool, isProtected: bool)
      ensures row == SeenAgain(existing, runId, position, n)
      ensures changed <==> row != existing
      ensures isProtected <==> existing.status != Discovered
    {
      row, changed := existing, false;
      if row.lastSeenRun != runId {
        row := row.(lastSeenRun := runId);
        changed := true;
      }
      if position.Some? && (row.bestPosition.None? || position.value < row.bestPosition.value) {
        row := row.(bestPosition := position);
        changed := true;
      }
      isProtected := row.status != Discovered;
      if !isProtected {
        var name, c0 := FillColumn(row.fields.name, n.name);
        var normalizedName, c1 := FillColumn(row.fields.normalizedName, n.normalizedName);
        var website, c2 := FillColumn(row.fields.website, n.website);
        var websiteIdentity, c3 := FillColumn(row.fields.websiteIdentity, n.websiteIdentity);
        var countryCode, c4 := FillColumn(row.fields.countryCode, n.countryCode);
        row := row.(fields := Normalized(name, normalizedName, website, websiteIdentity, countryCode,
                                         row.fields.identityKey));
        changed := changed || c0 || c1 || c2 || c3 || c4;
      }
    }

    /** Sets a column that is null when the incoming value is not. */
    static method FillColumn(current: Option<string>, incoming: Option<string>)
      returns (column: Option<string>, changed: bool)
      ensures column == Fill(current, incoming)
      ensures changed <==> column != current
    {
      if current.None? && incoming.Some? {
        column, changed := incoming, true;
      } else {
        column, changed := current, false;
      }
    }

    method SetCandidateStatus(projectId: nat, candidateId: nat, status: CandidateStatus)
      returns (r: Result<(), RepositoryError>)
      modifies session
      ensures var spec := DiscoveryTables.SetCandidateStatus(old(session.View()), projectId, candidateId, status);
        && (spec.Ok? ==> r == Ok(()) && session.View() == spec.value)
        && (spec.Err? ==> r == Err(spec.error) && session.View() == old(session.View()))
    {
      if status !in {Reviewed, Rejected} {
        return Err(InvalidValue);
      }
      if candidateId !in session.candidates || session.candidates[candidateId].projectId != projectId {
        return Err(MissingRow);
      }
      var row := session.candidates[candidateId];
      row := row.(status := status);
      session.candidates := session.candidates[candidateId := row];
      r := Ok(());
    }

    method LinkPromotedCompany(projectId: nat, candidateId: nat, companyId: nat)
      returns (r: Result<(), RepositoryError>)
      modifies session
      ensures var spec := DiscoveryTables.LinkPromotedCompany(old(session.View()), projectId, candidateId, companyId);
        && (spec.Ok? ==> r == Ok(()) && session.View() == spec.value)
        && (spec.Err? ==> r == Err(spec.error) && session.View() == old(session.View()))
    {
      if candidateId !in session.candidates || session.candidates[candidateId].projectId != projectId {
        return Err(MissingRow);
      }
      var row := session.candidates[candidateId];
      if row.status != Reviewed || row.promotedCompany.Some? {
        return Err(InvalidValue);
      }
      if companyId !in session.companies || session.companies[companyId].projectId != projectId {
        return Err(InvalidValue);
      }
      row := row.(status := Promoted);
      row := row.(promotedCompany := Some(companyId));
      session.candidates := session.candidates[candidateId := row];
      r := Ok(());
    }
  }
}
