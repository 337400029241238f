/** The values an item reaches a draft with, and a row its preview with, field by field. */
module AdapterOutcomes {
  import opened Common
  import opened Text
  import opened Platform
  import opened StagingNormalization
  import opened SearchProfileDiscovery
  import opened StagingAdapter
  import opened StagingDeduplication
  import opened StagingOrchestration

  /** A text with its whitespace collapsed, missing if nothing is left of it. */
  function Collapsed(value: Option<string>): Option<string> {
    if value.None? || Collapse(value.value) == "" then None else Some(Collapse(value.value))
  }

  /** A text within its bound as it was given, and free of markup. */
  predicate Clean(value: Option<string>, maximum: nat) {
    value.Some? ==> |value.value| <= maximum && !HasMarkup(Collapse(value.value))
  }

  lemma CleanTextIs(value: Option<string>, maximum: nat)
    ensures CleanText(value, maximum) == if Clean(value, maximum) then Valid(Collapsed(value)) else Invalid
  {
  }

  predicate ItemIsClean(item: IngestionItem) {
    && Clean(Some(item.name), 255) && Clean(item.website, 500) && Clean(item.city, 100)
    && Clean(item.industry, 100) && Clean(item.notes, 1000)
  }

  predicate ProviderIsClean(provider: string) {
    |provider| <= 100 && Collapse(provider) != "" && !HasMarkup(Collapse(provider))
  }

  /** The identity of an item under the country of its query. */
  function ItemIdentity(t: Tables, country: Option<string>, item: IngestionItem): Checked<Normalized> {
    NormalizeCandidateIdentity(t, Collapsed(Some(item.name)), Collapsed(item.website), country)
  }

  /** The draft of an item: each text collapsed, in the field it came from, and a position only from one up. */
  predicate DraftOf(draft: Draft, projectId: nat, provider: string, country: Option<string>, item: IngestionItem) {
    && draft.projectId == projectId && draft.provider == Collapse(provider)
    && draft.name == Collapsed(Some(item.name)) && draft.website == Collapsed(item.website)
    && draft.city == Collapsed(item.city) && draft.industry == Collapsed(item.industry)
    && draft.snippet == Collapsed(item.notes) && draft.countryCode == country
    && (if item.position.Some? && item.position.value >= 1
        then draft.position.Some? && draft.position.value == item.position.value else draft.position == None)
  }

  /**
   An item is accepted exactly when each of its texts is within its bound and free of markup, the provider and the
   query's country can be used, and what is left identifies a candidate; it keeps its own texts and that identity.
   */
  lemma AcceptedExactlyWhen(t: Tables, projectId: nat, provider: string, query: SearchQuery, item: IngestionItem)
    ensures match (NormalizeCountryCode(t, query.countryCode), AdaptItem(t, projectId, provider, query, item))
      case (Valid(country), Valid(a)) =>
        && projectId > 0 && ProviderIsClean(provider) && ItemIsClean(item)
        && ItemIdentity(t, country, item) == Valid(a.normalized)
        && DraftOf(a.draft, projectId, provider, country, item)
      case (Valid(country), Invalid) =>
        !(projectId > 0 && ProviderIsClean(provider) && ItemIsClean(item) && ItemIdentity(t, country, item).Valid?)
      case (Invalid, adapted) => adapted.Invalid?
  {
    CollapseOfStrip(provider);
    CleanTextIs(Some(item.name), 255);
    CleanTextIs(item.website, 500);
    CleanTextIs(item.city, 100);
    CleanTextIs(item.industry, 100);
    CleanTextIs(item.notes, 1000);
  }

  // ----- The order of what is kept ------------------------------------------------------------------------

  /** The k-th item of an answer is that of an adaptable result with k others before it. */
  lemma {:induction false} ItemComesFrom(results: seq<ProviderResult>, k: nat) returns (i: nat)
    requires k < |Items(results)|
    ensures i < |results| && results[i].Adaptable? && results[i].item == Items(results)[k]
    ensures |Items(results[..i])| == k
  {
    var n := |results| - 1;
    if k < |Items(results[..n])| {
      i := ItemComesFrom(results[..n], k);
      assert results[..n][..i] == results[..i];
    } else {
      i := n;
    }
  }

  lemma {:induction false} AcceptedComesFrom(t: Tables, projectId: nat, provider: string, query: SearchQuery,
                                             items: seq<IngestionItem>, k: nat) returns (i: nat)
    requires k < |AcceptedItems(t, projectId, provider, query, items)|
    ensures i < |items|
    ensures AdaptItem(t, projectId, provider, query, items[i]) ==
            Valid(AcceptedItems(t, projectId, provider, query, items)[k])
    ensures |AcceptedItems(t, projectId, provider, query, items[..i])| == k
  {
    var n := |items| - 1;
    if k < |AcceptedItems(t, projectId, provider, query, items[..n])| {
      i := AcceptedComesFrom(t, projectId, provider, query, items[..n], k);
      assert items[..n][..i] == items[..i];
    } else {
      i := n;
    }
  }

  /** Where an element of joined parts comes from: the part, and the place in it. */
  lemma {:induction false} PartOf(joined: nat -> seq<Adapted>, parts: nat -> seq<Adapted>, n: nat, k: nat)
    returns (q: nat, m: nat)
    requires joined(0) == [] && forall i: nat :: i < n ==> joined(i + 1) == joined(i) + parts(i)
    requires k < |joined(n)|
    ensures q < n && k == |joined(q)| + m && m < |parts(q)| && parts(q)[m] == joined(n)[k]
  {
    assert joined(n) == joined(n - 1) + parts(n - 1);
    if k < |joined(n - 1)| {
      q, m := PartOf(joined, parts, n - 1, k);
    } else {
      q, m := n - 1, k - |joined(n - 1)|;
    }
  }

  lemma QueryOfDraft(t: Tables, projectId: nat, provider: string, results: seq<QueryResult>, k: nat)
    returns (q: nat, m: nat)
    requires k < |AdaptAll(t, projectId, provider, results)|
    ensures q < |results| && k == |AdaptAll(t, projectId, provider, results[..q])| + m
    ensures var accepted := AcceptedItems(t, projectId, provider, results[q].query, results[q].items);
      m < |accepted| && accepted[m] == AdaptAll(t, projectId, provider, results)[k]
  {
    var joined := (i: nat) => if i <= |results| then AdaptAll(t, projectId, provider, results[..i]) else [];
    var parts := (i: nat) =>
      if i < |results| then AcceptedItems(t, projectId, provider, results[i].query, results[i].items) else [];
    forall i: nat | i < |results|
      ensures joined(i + 1) == joined(i) + parts(i)
    {
      OneMoreQuery(t, projectId, provider, results, i);
    }
    NoQueries(t, projectId, provider, results);
    q, m := PartOf(joined, parts, |results|, k);
  }

  lemma OneMoreQuery(t: Tables, projectId: nat, provider: string, results: seq<QueryResult>, i: nat)
    requires i < |results|
    ensures AdaptAll(t, projectId, provider, results[..i + 1]) ==
      AdaptAll(t, projectId, provider, results[..i])
      + AcceptedItems(t, projectId, provider, results[i].query, results[i].items)
  {
    assert results[..i + 1][..i] == results[..i];
  }

  lemma NoQueries(t: Tables, projectId: nat, provider: string, results: seq<QueryResult>)
    ensures AdaptAll(t, projectId, provider, results[..0]) == [] && results[..|results|] == results
  {
  }

  /** The k-th draft of a run is that of an accepted item of a query; k drafts come from the items before it. */
  lemma DraftComesFrom(t: Tables, projectId: nat, provider: string, results: seq<QueryResult>, k: nat)
    returns (q: nat, i: nat)
    requires k < |AdaptAll(t, projectId, provider, results)|
    ensures q < |results| && i < |results[q].items|
    ensures AdaptItem(t, projectId, provider, results[q].query, results[q].items[i]) ==
            Valid(AdaptAll(t, projectId, provider, results)[k])
    ensures k == |AdaptAll(t, projectId, provider, results[..q])|
                 + |AcceptedItems(t, projectId, provider, results[q].query, results[q].items[..i])|
  {
    var m: nat;
    q, m := QueryOfDraft(t, projectId, provider, results, k);
    i := AcceptedComesFrom(t, projectId, provider, results[q].query, results[q].items, m);
  }

  // ----- Previews -------------------------------------------------------------------------------------------

  /** A text as a preview shows it. */
  function ShownOf(t: Tables, value: Option<string>): Option<string> {
    if value.None? || Collapse(t.nfkc(value.value)) == "" then None else Some(Collapse(t.nfkc(value.value)))
  }

  lemma ShownTextIs(t: Tables, value: Option<string>, maximum: nat)
    requires ShownText(t, value, maximum).Valid?
    ensures ShownText(t, value, maximum) == Valid(ShownOf(t, value))
  {
  }

  lemma BuiltCard(t: Tables, raw: Card, card: Card)
    requires BuildCard(t, raw) == Valid(card)
    ensures card.name == ShownOf(t, raw.name) && card.city == ShownOf(t, raw.city)
      && card.industry == ShownOf(t, raw.industry) && card.snippet == ShownOf(t, raw.snippet)
    ensures Valid(card.countryCode) == NormalizeCountryCode(t, raw.countryCode)
      && card.bestPosition == raw.bestPosition && (card.website.Some? <==> raw.website.Some?)
    ensures card.identityKey == Collapse(raw.identityKey)
  {
    ShownTextIs(t, raw.name, 255);
    ShownTextIs(t, raw.city, 100);
    ShownTextIs(t, raw.industry, 100);
    ShownTextIs(t, raw.snippet, 1000);
    CollapseOfStrip(raw.identityKey);
  }

  /** A preview shows the row's own values: the name, country and position as they are, the texts after NFKC. */
  lemma CardShows(t: Tables, projectId: nat, row: Row, card: Card)
    requires t.Lawful() && WellFormedRow(t, projectId, row) && CandidatePreview(t, row) == Valid(card)
    ensures var n := row.sighting.fields;
      && card.name == n.name && card.countryCode == n.countryCode && card.bestPosition == row.sighting.position
      && (card.website.Some? <==> n.website.Some?) && card.identityKey == Collapse(n.identityKey)
      && card.city == ShownOf(t, row.draft.city) && card.industry == ShownOf(t, row.draft.industry)
      && card.snippet == ShownOf(t, row.draft.snippet)
  {
    var n := row.sighting.fields;
    BuiltCard(t, Card(n.name, n.website, n.websiteIdentity, n.countryCode, row.sighting.position, n.identityKey,
                      row.draft.city, row.draft.industry, row.draft.snippet), card);
    NameAndCountryStay(t, n);
  }

  lemma NameAndCountryStay(t: Tables, n: Normalized)
    requires NormalForm(t, n)
    ensures ShownOf(t, n.name) == n.name && NormalizeCountryCode(t, n.countryCode) == Valid(n.countryCode)
  {
    if n.name.Some? {
      NormalIsFixed(n.name.value);
    }
  }
}
