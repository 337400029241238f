/** How every selection over a usable run ends, and the row past the cut that refuses one. */
module SelectionOutcomes {
  import opened Common
  import opened Text
  import opened Platform
  import opened StagingNormalization
  import opened DiscoveryTables
  import opened CandidateOrder
  import opened CandidatePromotion
  import opened CandidateLifecycle
  import opened CompanySelection

  // ----- What a stored row can show -------------------------------------------------------------------

  lemma StartKeepsText(s: string)
    requires s != "" && !IsSpace(s[0])
    ensures Strip(s) != ""
  {
    if Strip(s) == "" {
      StripShape(s);
      assert false;
    }
  }

  /** A shown name is not blank and fits its field. */
  lemma ShownNameFits(name: string)
    requires Strip(name) != ""
    ensures WithinBound(Some(ShownName(name)), 200)
  {
    CollapseOfStrip(name);
    StrippedStart(name);
    CollapseKeepsCharacters(Strip(name));
    var normalized := Collapse(name);
    CollapseIsNormal(name);
    NormalStart(normalized);
    if |normalized| > 200 {
      TruncationStaysNormal(normalized, 197);
      var cut := RStrip(normalized[..197]);
      assert (cut + "...")[0] == cut[0];
      StartKeepsText(cut + "...");
    } else {
      StartKeepsText(normalized);
    }
  }

  lemma StrippedStart(s: string)
    requires Strip(s) != ""
    ensures !IsSpace(Strip(s)[0])
  {
    LStripShape(s);
    RStripShape(LStrip(s));
  }

  lemma NormalStart(s: string)
    requires IsNormal(s) && s != ""
    ensures !IsSpace(s[0])
  {
  }

  /** A describable row in normal form is refused by a request only for its evidence. */
  lemma RowIsShown(t: Tables, x: Listed, index: nat, evidence: map<string, Evidence>)
    requires t.Lawful() && NormalForm(t, x.row.fields) && Describable(x.row) && 1 <= index <= 5
    ensures ValidShown(ShowRow(x, index, evidence)) <==> ValidEvidence(EvidenceOf(x, evidence))
  {
    ShownNameFits(x.row.fields.name.value);
    WebsiteFits(t, x.row.fields);
    if x.row.fields.countryCode.Some? {
      StartKeepsText(x.row.fields.countryCode.value);
    }
  }

  lemma WebsiteFits(t: Tables, n: Normalized)
    requires t.Lawful() && NormalForm(t, n)
    ensures WithinBound(n.website, 2048)
  {
    if n.website.Some? {
      var parts :| SiteForm(t, parts, n.website.value, n.websiteIdentity.value);
      RenderStrips(t, parts);
    }
  }

  /** A stored row can be described exactly if it has a name, no NUL in what names it, and no position zero. */
  lemma DescribableExactlyWhenNamed(t: Tables, row: Candidate)
    requires t.Lawful() && NormalForm(t, row.fields)
    ensures Describable(row) <==>
      && row.fields.name.Some? && '\0' !in row.fields.name.value
      && (row.fields.website.None? ==> '\0' !in row.fields.normalizedName.value)
      && row.bestPosition != Some(0)
  {
    var n := row.fields;
    KeyIsShown(t, n);
    if n.name.Some? {
      NormalStart(n.name.value);
      StartKeepsText(n.name.value);
    }
    if n.countryCode.Some? {
      assert t.isoCountry(n.countryCode.value) == Some(n.countryCode.value);
    }
  }

  lemma KeyIsShown(t: Tables, n: Normalized)
    requires t.Lawful() && NormalForm(t, n)
    ensures Strip(n.identityKey) != ""
    ensures '\0' in n.identityKey <==> n.website.None? && '\0' in n.normalizedName.value
  {
    if n.website.Some? {
      var parts :| SiteForm(t, parts, n.website.value, n.websiteIdentity.value);
      HostShape(t, parts.host);
      IdentityHasNoNul(parts);
      WebsiteKeyText(n.websiteIdentity.value);
    } else {
      assert t.isoCountry(n.countryCode.value) == Some(n.countryCode.value);
      CountryHasNoNul(n.countryCode.value);
      NameKeyText(n.normalizedName.value, n.countryCode.value);
    }
  }

  lemma CountryHasNoNul(code: string)
    requires |code| == 2 && 'A' <= code[0] <= 'Z' && 'A' <= code[1] <= 'Z'
    ensures '\0' !in code
  {
  }

  lemma IdentityHasNoNul(parts: UrlParts)
    requires HostText(parts.host)
    ensures '\0' !in SiteIdentity(parts)
  {
    var host := WithoutWww(parts.host);
    assert forall c :: c in host ==> c in parts.host;
    match IdentityPort(parts.scheme, parts.port)
    case None =>
    case Some(port) => DecimalShape(port);
  }

  lemma WebsiteKeyText(identity: string)
    ensures Strip("website:" + identity) != ""
    ensures '\0' in "website:" + identity <==> '\0' in identity
  {
    var key := "website:" + identity;
    assert key[0] == 'w';
    StartKeepsText(key);
    assert '\0' !in "website:";
  }

  lemma NameKeyText(name: string, code: string)
    requires '\0' !in code
    ensures Strip("name_country:" + name + "|" + code) != ""
    ensures '\0' in "name_country:" + name + "|" + code <==> '\0' in name
  {
    var key := "name_country:" + name + "|" + code;
    assert key[0] == 'n';
    StartKeepsText(key);
    assert '\0' !in "name_country:" && '\0' !in "|";
  }

  // ----- How a selection ends ---------------------------------------------------------------------------

  ghost predicate UsableRun(s: Store, projectId: nat, runId: nat, goal: string, k: nat) {
    && projectId > 0 && runId in s.runs && s.runs[runId].projectId == projectId
    && s.runs[runId].status in {Succeeded, Partial} && ValidGoal(goal) && 1 <= k <= 5
  }

  ghost predicate AllDescribable(xs: seq<Listed>) {
    forall x :: x in xs ==> Describable(x.row)
  }

  ghost predicate AllEvidenced(xs: seq<Listed>, evidence: map<string, Evidence>) {
    forall x :: x in xs ==> ValidEvidence(EvidenceOf(x, evidence))
  }

  /** What building makes of describable rows with distinct ids. */
  lemma BuiltInput(t: Tables, size: Request -> nat, projectId: nat, runId: nat, goal: string, ordered: seq<Listed>,
                   evidence: map<string, Evidence>)
    requires t.Lawful() && ValidGoal(goal) && 1 <= |ordered| <= 5 && AllDescribable(ordered) && DistinctIds(ordered)
    requires forall x :: x in ordered ==> NormalForm(t, x.row.fields) && x.id > 0
    ensures BuildInput(size, projectId, runId, goal, ordered, evidence) ==
      if !AllEvidenced(ordered, evidence) then Err(Inconsistent)
      else if size(RequestOf(goal, ordered, evidence)) > MAX_REQUEST_BYTES then Err(InvalidInput)
      else Ok(SelectionInput(projectId, runId, RequestOf(goal, ordered, evidence), BindingsOf(ordered)))
  {
    ValidExactlyWhenEvidenced(t, goal, ordered, evidence);
    assert forall i :: 0 <= i < |ordered| ==> ordered[i] in ordered;
  }

  lemma ValidExactlyWhenEvidenced(t: Tables, goal: string, ordered: seq<Listed>, evidence: map<string, Evidence>)
    requires t.Lawful() && ValidGoal(goal) && 1 <= |ordered| <= 5 && AllDescribable(ordered)
    requires forall x :: x in ordered ==> NormalForm(t, x.row.fields)
    ensures ValidRequest(RequestOf(goal, ordered, evidence)) <==> AllEvidenced(ordered, evidence)
  {
    forall i | 0 <= i < |ordered|
      ensures ValidShown(ShowRow(ordered[i], i + 1, evidence)) <==> ValidEvidence(EvidenceOf(ordered[i], evidence))
    {
      assert ordered[i] in ordered;
      RowIsShown(t, ordered[i], i + 1, evidence);
    }
    EachShown(goal, ordered, evidence);
  }

  lemma EachShown(goal: string, ordered: seq<Listed>, evidence: map<string, Evidence>)
    requires ValidGoal(goal) && 1 <= |ordered| <= 5
    requires forall i :: 0 <= i < |ordered| ==>
      (ValidShown(ShowRow(ordered[i], i + 1, evidence)) <==> ValidEvidence(EvidenceOf(ordered[i], evidence)))
    ensures ValidRequest(RequestOf(goal, ordered, evidence)) <==> AllEvidenced(ordered, evidence)
  {
    var shown := RequestOf(goal, ordered, evidence).candidates;
    assert forall i :: 0 <= i < |ordered| ==> shown[i] == ShowRow(ordered[i], i + 1, evidence) && ordered[i] in ordered;
    if ValidRequest(RequestOf(goal, ordered, evidence)) {
      forall x | x in ordered
        ensures ValidEvidence(EvidenceOf(x, evidence))
      {
        var i :| 0 <= i < |ordered| && ordered[i] == x;
        assert ValidShown(shown[i]);
      }
    }
  }

  /**
   The outcome of every selection over a usable run, on tables that meet the invariant and whose rows are in normal
   form. One row among those fetched that cannot be described refuses the whole selection, shown or not; otherwise it
   is refused only for the evidence of a row it shows or for the size of its request.
   */
  lemma OutcomeOfSelection(t: Tables, s: Store, size: Request -> nat, projectId: nat, runId: nat, goal: string, k: nat,
                           includePromoted: bool, evidence: map<string, Evidence>)
    requires t.Lawful() && Inv(s) && NormalRows(t, s.candidates) && UsableRun(s, projectId, runId, goal, k)
    ensures PrepareSelection(s, size, projectId, runId, goal, k, includePromoted, evidence) ==
      var top := Take(k, Eligible(s, projectId, runId, includePromoted));
      if Eligible(s, projectId, runId, includePromoted) == [] then Err(NoCandidates)
      else if !AllDescribable(Fetch(s, projectId, runId, k, includePromoted)) then Err(Inconsistent)
      else if !AllEvidenced(top, evidence) then Err(Inconsistent)
      else if size(RequestOf(goal, top, evidence)) > MAX_REQUEST_BYTES then Err(InvalidInput)
      else Ok(SelectionInput(projectId, runId, RequestOf(goal, top, evidence), BindingsOf(top)))
  {
    FetchedRowsAreValid(s, projectId, runId, k, includePromoted);
    FetchesNothingWhenNothingIsEligible(s, projectId, runId, k, includePromoted);
    TakeOnce(s, projectId, runId, k, includePromoted);
    var fetched := Fetch(s, projectId, runId, k, includePromoted);
    var maximum := if includePromoted then k * 2 else k;
    if ValidBatch(fetched, projectId, runId, maximum, includePromoted) && fetched != [] {
      ShownRows(t, s, projectId, runId, k, includePromoted);
      BuiltInput(t, size, projectId, runId, goal, Take(k, Eligible(s, projectId, runId, includePromoted)), evidence);
    }
    RunIsUsable(s, size, projectId, runId, goal, k, includePromoted, evidence);
  }

  /** The rows shown by a selection whose fetched rows are all valid. */
  lemma ShownRows(t: Tables, s: Store, projectId: nat, runId: nat, k: nat, includePromoted: bool)
    requires Inv(s) && NormalRows(t, s.candidates) && 1 <= k <= 5
    requires var fetched := Fetch(s, projectId, runId, k, includePromoted);
      fetched != [] && ValidBatch(fetched, projectId, runId, if includePromoted then k * 2 else k, includePromoted)
    ensures var top := Take(k, Eligible(s, projectId, runId, includePromoted));
      && 1 <= |top| <= 5 && AllDescribable(top) && DistinctIds(top)
      && forall x :: x in top ==> NormalForm(t, x.row.fields) && x.id > 0
  {
    var fetched := Fetch(s, projectId, runId, k, includePromoted);
    TakeOnce(s, projectId, runId, k, includePromoted);
    FetchedMembers(s, projectId, runId, k, includePromoted);
    forall x | x in fetched
      ensures NormalForm(t, x.row.fields) && x.id > 0 && Describable(x.row)
    {
      assert ValidCandidate(x, projectId, runId, includePromoted);
      assert NormalForm(t, s.candidates[x.id].fields);
    }
    CutOfFetched(t, fetched, k);
  }

  lemma CutOfFetched(t: Tables, fetched: seq<Listed>, k: nat)
    requires DistinctIds(fetched) && fetched != [] && 1 <= k <= 5
    requires forall x :: x in fetched ==> NormalForm(t, x.row.fields) && x.id > 0 && Describable(x.row)
    ensures var top := Take(k, Sorted(fetched));
      && 1 <= |top| <= 5 && AllDescribable(top) && DistinctIds(top)
      && forall x :: x in top ==> NormalForm(t, x.row.fields) && x.id > 0
  {
    InsertAllMembers([], fetched);
    InsertAllKeepsIds([], fetched);
    var top := Take(k, Sorted(fetched));
    forall x | x in top
      ensures x in fetched
    {
      assert x in Sorted(fetched);
    }
  }

  lemma RunIsUsable(s: Store, size: Request -> nat, projectId: nat, runId: nat, goal: string, k: nat,
                    includePromoted: bool, evidence: map<string, Evidence>)
    requires Inv(s) && UsableRun(s, projectId, runId, goal, k)
    ensures var fetched := Fetch(s, projectId, runId, k, includePromoted);
      var maximum := if includePromoted then k * 2 else k;
      PrepareSelection(s, size, projectId, runId, goal, k, includePromoted, evidence) ==
      if !ValidBatch(fetched, projectId, runId, maximum, includePromoted) then Err(Inconsistent)
      else if fetched == [] then Err(NoCandidates)
      else BuildInput(size, projectId, runId, goal, Take(k, Sorted(fetched)), evidence)
  {
  }

  // ----- The row past the cut -----------------------------------------------------------------------------

  /** A project with a promoted row at position one and a row that was only discovered at position two. */
  function TwoRows(named: Normalized, nameless: Normalized): Store {
    Store(
      map[], {1}, map[1 := Run(1, Succeeded, 2, 2, None, None)], 2,
      map[1 := Candidate(1, 1, 1, "p", named, Some(1), Promoted, Some(1)),
          2 := Candidate(1, 1, 1, "p", nameless, Some(2), Discovered, None)], 3,
      map[1 := Company(1, "c", None, None)], 2)
  }

  lemma TwoRowsAreListed(named: Normalized, nameless: Normalized)
    ensures var s := TwoRows(named, nameless);
      && Fetch(s, 1, 1, 1, true) == [Listed(2, s.candidates[2]), Listed(1, s.candidates[1])]
      && Eligible(s, 1, 1, true) == [Listed(1, s.candidates[1]), Listed(2, s.candidates[2])]
  {
    var s := TwoRows(named, nameless);
    var first, second := Listed(1, s.candidates[1]), Listed(2, s.candidates[2]);
    TwoRowsOfRun(named, nameless, {Discovered});
    TwoRowsOfRun(named, nameless, {Promoted});
    TwoRowsOfRun(named, nameless, {Discovered, Promoted});
    TwoAreListed(s, first, second);
  }

  lemma TwoAreListed(s: Store, first: Listed, second: Listed)
    requires first.id < second.id && Before(first, second)
    requires RowsOfRun(s.candidates, s.nextCandidate, 1, 1, {Discovered}) == [second]
    requires RowsOfRun(s.candidates, s.nextCandidate, 1, 1, {Promoted}) == [first]
    requires RowsOfRun(s.candidates, s.nextCandidate, 1, 1, {Discovered, Promoted}) == [first, second]
    ensures Fetch(s, 1, 1, 1, true) == [second, first] && Eligible(s, 1, 1, true) == [first, second]
  {
    SortedInOrder([first]);
    SortedInOrder([second]);
    SortedInOrder([first, second]);
  }

  lemma SortedInOrder(xs: seq<Listed>)
    requires InOrder(xs) && DistinctIds(xs)
    ensures Sorted(xs) == xs
  {
    assert [] + xs == xs;
    InOrderIsFixed([], xs);
  }

  lemma TwoRowsOfRun(named: Normalized, nameless: Normalized, statuses: set<CandidateStatus>)
    ensures var s := TwoRows(named, nameless);
      RowsOfRun(s.candidates, 3, 1, 1, statuses) ==
      (if Promoted in statuses then [Listed(1, s.candidates[1])] else [])
      + (if Discovered in statuses then [Listed(2, s.candidates[2])] else [])
  {
    var s := TwoRows(named, nameless);
    RowsOfOneMore(s.candidates, 2, 1, 1, statuses);
    RowsOfOneMore(s.candidates, 1, 1, 1, statuses);
    RowsOfOneMore(s.candidates, 0, 1, 1, statuses);
  }

  /**
   With a cut of one the promoted, named row is all a selection would show, and still the nameless row behind it
   refuses the selection.
   */
  lemma NamelessRowPastTheCut(t: Tables, named: Normalized, nameless: Normalized, size: Request -> nat, goal: string,
                              evidence: map<string, Evidence>)
    requires t.Lawful() && NormalForm(t, named) && NormalForm(t, nameless) && ValidGoal(goal)
    requires named.name.Some? && nameless.name.None? && named.identityKey != nameless.identityKey
    ensures var s := TwoRows(named, nameless);
      && Inv(s) && NormalRows(t, s.candidates) && UsableRun(s, 1, 1, goal, 1)
      && Take(1, Eligible(s, 1, 1, true)) == [Listed(1, s.candidates[1])]
      && PrepareSelection(s, size, 1, 1, goal, 1, true, evidence) == Err(Inconsistent)
  {
    var s := TwoRows(named, nameless);
    TwoRowsAreListed(named, nameless);
    TwoRowsMeetTheInvariant(named, nameless);
    NamelessIsFetched(named, nameless);
    UndescribableRefuses(t, s, size, goal, evidence);
  }

  lemma NamelessIsFetched(named: Normalized, nameless: Normalized)
    requires nameless.name.None?
    ensures !AllDescribable(Fetch(TwoRows(named, nameless), 1, 1, 1, true))
      && Eligible(TwoRows(named, nameless), 1, 1, true) != []
  {
    var s := TwoRows(named, nameless);
    TwoRowsAreListed(named, nameless);
    assert Listed(2, s.candidates[2]) in Fetch(s, 1, 1, 1, true) && !Describable(s.candidates[2]);
  }

  lemma UndescribableRefuses(t: Tables, s: Store, size: Request -> nat, goal: string, evidence: map<string, Evidence>)
    requires t.Lawful() && Inv(s) && NormalRows(t, s.candidates) && UsableRun(s, 1, 1, goal, 1)
    requires !AllDescribable(Fetch(s, 1, 1, 1, true)) && Eligible(s, 1, 1, true) != []
    ensures PrepareSelection(s, size, 1, 1, goal, 1, true, evidence) == Err(Inconsistent)
  {
    OutcomeOfSelection(t, s, size, 1, 1, goal, 1, true, evidence);
  }

  lemma TwoRowsMeetTheInvariant(named: Normalized, nameless: Normalized)
    requires named.identityKey != nameless.identityKey
    ensures Inv(TwoRows(named, nameless))
  {
    var s := TwoRows(named, nameless);
    assert UsableCompany(s, 1, 1);
    assert RowIntact(s, 1, s.candidates[1]) && RowIntact(s, 2, s.candidates[2]);
  }
}
