/** Turning ingestion items into staged candidate drafts. */
module StagingAdapter {
  import opened Common
  import opened Text
  import opened Platform
  import opened StagingNormalization
  import opened DiscoveryTables
  import opened SearchProfileDiscovery

  datatype Draft = Draft(
    projectId: nat, provider: string, name: Option<string>, website: Option<string>,
    countryCode: Option<string>, position: Option<nat>,
    city: Option<string>, industry: Option<string>, snippet: Option<string>)

  /** An accepted item: its draft and its normalised identity. */
  datatype Adapted = Adapted(draft: Draft, normalized: Normalized)

  function SafePosition(position: Option<int>): Option<nat> {
    if position.Some? && position.value >= 1 then Some(position.value) else None
  }

  /** A bounded optional text of a draft: the bound is on the raw text, blank becomes null, markup is refused. */
  function CleanText(value: Option<string>, maximum: nat): Checked<Option<string>> {
    if value.None? then Valid(None)
    else if |value.value| > maximum then Invalid
    else
      var normalized := Collapse(value.value);
      if normalized == "" then Valid(None)
      else if HasMarkup(normalized) then Invalid
      else Valid(Some(normalized))
  }

  function CleanProvider(provider: string): Checked<string> {
    var normalized := Collapse(Strip(provider));
    if |provider| > 100 || normalized == "" || HasMarkup(normalized) then Invalid else Valid(normalized)
  }

  function AdaptItem(t: Tables, projectId: nat, provider: string, query: SearchQuery, item: IngestionItem):
    Checked<Adapted>
  {
    if projectId == 0 then Invalid
    else
      var cleanProvider :- CleanProvider(provider);
      var name :- CleanText(Some(item.name), 255);
      var website :- CleanText(item.website, 500);
      var countryCode :- NormalizeCountryCode(t, query.countryCode);
      var city :- CleanText(item.city, 100);
      var industry :- CleanText(item.industry, 100);
      var snippet :- CleanText(item.notes, 1000);
      var normalized :- NormalizeCandidateIdentity(t, name, website, countryCode);
      Valid(Adapted(
        Draft(projectId, cleanProvider, name, website, countryCode, SafePosition(item.position), city, industry,
              snippet),
        normalized))
  }

  /** The accepted items, in order. */
  function AcceptedItems(t: Tables, projectId: nat, provider: string, query: SearchQuery, items: seq<IngestionItem>):
    (accepted: seq<Adapted>)
    ensures |accepted| <= |items|
  {
    if |items| == 0 then []
    else
      var front := AcceptedItems(t, projectId, provider, query, items[..|items| - 1]);
      match AdaptItem(t, projectId, provider, query, items[|items| - 1])
      case Invalid => front
      case Valid(adapted) => front + [adapted]
  }

  method AdaptQueryItems(t: Tables, projectId: nat, provider: string, query: SearchQuery, items: seq<IngestionItem>)
    returns (drafts: seq<Adapted>, rejected: nat)
    ensures drafts == AcceptedItems(t, projectId, provider, query, items)
    ensures |drafts| + rejected == |items|
  {
    drafts, rejected := [], 0;
    for i := 0 to |items|
      invariant drafts == AcceptedItems(t, projectId, provider, query, items[..i])
      invariant |drafts| + rejected == i
    {
      assert items[..i + 1][..i] == items[..i];
      var adapted := AdaptItem(t, projectId, provider, query, items[i]);
      if adapted.Valid? {
        drafts := drafts + [adapted.value];
      } else {
        rejected := rejected + 1;
      }
    }
    assert items[..|items|] == items;
  }

  function CandidateCreateFromPayload(draft: Draft, runId: nat, normalized: Normalized): CandidateCreate {
    CandidateCreate(draft.projectId, runId, draft.provider, normalized.name, normalized.website,
                    normalized.countryCode, draft.position)
  }

  /** A draft text as `CleanText` leaves it. */
  predicate CleanedText(value: Option<string>, maximum: nat) {
    value.Some? ==> IsNormal(value.value) && value.value != "" && !HasMarkup(value.value) && |value.value| <= maximum
  }

  lemma CleanTextShape(value: Option<string>, maximum: nat)
    requires CleanText(value, maximum).Valid?
    ensures CleanedText(CleanText(value, maximum).value, maximum)
  {
    if value.Some? {
      CollapseIsNormal(value.value);
      CollapseShortens(value.value);
    }
  }

  /** What the rest of the run relies on in an accepted item. */
  ghost predicate WellAdapted(t: Tables, projectId: nat, a: Adapted) {
    && a.draft.projectId == projectId
    && NormalForm(t, a.normalized)
    && CleanedText(a.draft.city, 100) && CleanedText(a.draft.industry, 100) && CleanedText(a.draft.snippet, 1000)
  }

  lemma AdaptedIsWellFormed(t: Tables, projectId: nat, provider: string, query: SearchQuery, item: IngestionItem)
    requires t.Lawful() && AdaptItem(t, projectId, provider, query, item).Valid?
    ensures WellAdapted(t, projectId, AdaptItem(t, projectId, provider, query, item).value)
  {
    CleanTextShape(item.city, 100);
    CleanTextShape(item.industry, 100);
    CleanTextShape(item.notes, 1000);
    AcceptedIsNormalForm(t, CleanText(Some(item.name), 255).value, CleanText(item.website, 500).value,
                         NormalizeCountryCode(t, query.countryCode).value);
  }

  lemma {:induction false} AcceptedAreWellFormed(t: Tables, projectId: nat, provider: string, query: SearchQuery,
                                                 items: seq<IngestionItem>)
    requires t.Lawful()
    ensures forall a :: a in AcceptedItems(t, projectId, provider, query, items) ==> WellAdapted(t, projectId, a)
  {
    if |items| != 0 {
      AcceptedAreWellFormed(t, projectId, provider, query, items[..|items| - 1]);
      if AdaptItem(t, projectId, provider, query, items[|items| - 1]).Valid? {
        AdaptedIsWellFormed(t, projectId, provider, query, items[|items| - 1]);
      }
    }
  }
}
