/** The in-memory deduplication of one run's candidates, and its agreement with row-by-row staging. */
module StagingDeduplication {
  import opened Common
  import opened Platform
  import opened StagingNormalization
  import opened DiscoveryTables
  import opened SearchProfileDiscovery
  import opened StagingAdapter
  import opened StagingMerge

  /** The value of one deduplicated row: the first draft, the merged sighting and the number of repeats. */
  datatype Row = Row(draft: Draft, sighting: Sighting, duplicates: nat)

  function SightingOf(a: Adapted): Sighting {
    Sighting(a.draft.provider, a.draft.position, a.normalized)
  }

  function Sightings(rows: seq<Row>): seq<Sighting> {
    seq(|rows|, i requires 0 <= i < |rows| => rows[i].sighting)
  }

  function SightingsOf(items: seq<Adapted>): seq<Sighting> {
    seq(|items|, i requires 0 <= i < |items| => SightingOf(items[i]))
  }

  /** A draft carries the best position seen, when there is one. */
  function WithPosition(draft: Draft, position: Option<nat>): Draft {
    if position.Some? then draft.(position := position) else draft
  }

  /** A row after one more item of its identity. */
  function Repeated(row: Row, a: Adapted): Row {
    var merged := Merge(row.sighting, SightingOf(a));
    Row(WithPosition(row.draft, merged.position), merged, row.duplicates + 1)
  }

  function AddItem(rows: seq<Row>, a: Adapted): seq<Row> {
    match IndexOf(Sightings(rows), a.normalized.identityKey)
    case None => rows + [Row(a.draft, SightingOf(a), 0)]
    case Some(i) => rows[i := Repeated(rows[i], a)]
  }

  function Deduplicate(items: seq<Adapted>): seq<Row> {
    if |items| == 0 then [] else AddItem(Deduplicate(items[..|items| - 1]), items[|items| - 1])
  }

  function Duplicates(rows: seq<Row>): nat {
    if |rows| == 0 then 0 else Duplicates(rows[..|rows| - 1]) + rows[|rows| - 1].duplicates
  }

  /** The accepted items of a run, query after query. */
  function AdaptAll(t: Tables, projectId: nat, provider: string, results: seq<QueryResult>): seq<Adapted> {
    if |results| == 0 then []
    else
      var last := results[|results| - 1];
      AdaptAll(t, projectId, provider, results[..|results| - 1])
      + AcceptedItems(t, projectId, provider, last.query, last.items)
  }

  function ItemCount(results: seq<QueryResult>): nat {
    if |results| == 0 then 0 else ItemCount(results[..|results| - 1]) + |results[|results| - 1].items|
  }

  /** A row under construction; later items with the same identity key update it in place. */
  class CandidateRow {
    const identityKey: string
    var draft: Draft
    var normalized: Normalized
    var duplicates: nat
    var bestPosition: Option<nat>

    constructor (a: Adapted)
      ensures identityKey == a.normalized.identityKey && View() == Row(a.draft, SightingOf(a), 0)
    {
      identityKey := a.normalized.identityKey;
      draft, normalized, duplicates, bestPosition := a.draft, a.normalized, 0, a.draft.position;
    }

    function View(): Row
      reads this
    {
      Row(draft, Sighting(draft.provider, bestPosition, normalized), duplicates)
    }

    method Absorb(a: Adapted)
      modifies this
      ensures View() == Repeated(old(View()), a)
    {
      duplicates := duplicates + 1;
      normalized := FillMissingFields(normalized, a.normalized);
      bestPosition := BestPosition(bestPosition, a.draft.position);
      if bestPosition.Some? {
        draft := draft.(position := bestPosition);
      }
    }
  }

  function KeysOf(rows: seq<Row>): seq<string> {
    seq(|rows|, i requires 0 <= i < |rows| => Key(rows[i].sighting))
  }

  /** An insertion-ordered dictionary: the sequence gives the order, the map finds the row of a key. */
  ghost predicate Indexed(order: seq<CandidateRow>, byKey: map<string, CandidateRow>, keys: seq<string>) {
    && |order| == |keys|
    && (forall i :: 0 <= i < |keys| ==>
        order[i].identityKey == keys[i] && keys[i] in byKey && byKey[keys[i]] == order[i])
    && (forall i, j :: 0 <= i < j < |keys| ==> keys[i] != keys[j])
    && (forall key :: key in byKey ==> key in keys)
  }

  ghost predicate Holds(order: seq<CandidateRow>, rows: seq<Row>)
    reads order
  {
    |order| == |rows| && forall i :: 0 <= i < |order| ==> order[i].View() == rows[i]
  }

  method AdaptAndDeduplicateCandidates(t: Tables, projectId: nat, provider: string, results: seq<QueryResult>)
    returns (order: seq<CandidateRow>, rejections: nat)
    ensures fresh(order)
    ensures Holds(order, Deduplicate(AdaptAll(t, projectId, provider, results)))
    ensures forall i, j :: 0 <= i < j < |order| ==> order[i] != order[j]
    ensures rejections + |AdaptAll(t, projectId, provider, results)| == ItemCount(results)
  {
    var byKey: map<string, CandidateRow> := map[];
    order, rejections := [], 0;
    ghost var items: seq<Adapted> := [];
    for i := 0 to |results|
      invariant fresh(order) && items == AdaptAll(t, projectId, provider, results[..i])
      invariant Holds(order, Deduplicate(items)) && Indexed(order, byKey, KeysOf(Deduplicate(items)))
      invariant rejections + |items| == ItemCount(results[..i])
    {
      var drafts, rejected := AdaptQueryItems(t, projectId, provider, results[i].query, results[i].items);
      rejections := rejections + rejected;
      order, byKey := AddDrafts(order, byKey, items, drafts);
      items := items + drafts;
      assert results[..i + 1][..i] == results[..i];
      assert results[..i + 1][i] == results[i];
    }
    assert results[..|results|] == results;
  }

  method AddDrafts(order: seq<CandidateRow>, byKey: map<string, CandidateRow>, ghost items: seq<Adapted>,
                   drafts: seq<Adapted>)
    returns (order': seq<CandidateRow>, byKey': map<string, CandidateRow>)
    requires Holds(order, Deduplicate(items)) && Indexed(order, byKey, KeysOf(Deduplicate(items)))
    modifies order
    ensures Holds(order', Deduplicate(items + drafts)) && Indexed(order', byKey', KeysOf(Deduplicate(items + drafts)))
    ensures forall i :: 0 <= i < |order'| ==> order'[i] in order || fresh(order'[i])
  {
    order', byKey' := order, byKey;
    ghost var seen, rows := items, Deduplicate(items);
    for j := 0 to |drafts|
      invariant seen == items + drafts[..j] && rows == Deduplicate(seen)
      invariant Holds(order', rows) && Indexed(order', byKey', KeysOf(rows))
      invariant forall i :: 0 <= i < |order'| ==> order'[i] in order || fresh(order'[i])
    {
      DeduplicateSnoc(seen, drafts[j]);
      SnocSplits(items, drafts, j);
      order', byKey' := AddRow(order', byKey', rows, drafts[j]);
      seen, rows := seen + [drafts[j]], AddItem(rows, drafts[j]);
    }
    assert drafts[..|drafts|] == drafts;
  }

  lemma SnocSplits<T>(front: seq<T>, xs: seq<T>, j: nat)
    requires j < |xs|
    ensures (front + xs[..j]) + [xs[j]] == front + xs[..j + 1]
  {
  }

  lemma DeduplicateSnoc(items: seq<Adapted>, a: Adapted)
    ensures Deduplicate(items + [a]) == AddItem(Deduplicate(items), a)
  {
    assert (items + [a])[..|items|] == items;
  }

  method AddRow(order: seq<CandidateRow>, byKey: map<string, CandidateRow>, ghost rows: seq<Row>, a: Adapted)
    returns (order': seq<CandidateRow>, byKey': map<string, CandidateRow>)
    requires Holds(order, rows) && Indexed(order, byKey, KeysOf(rows))
    modifies order
    ensures Holds(order', AddItem(rows, a)) && Indexed(order', byKey', KeysOf(AddItem(rows, a)))
    ensures forall i :: 0 <= i < |order'| ==> order'[i] in order || fresh(order'[i])
  {
    var key := a.normalized.identityKey;
    ghost var added := AddItem(rows, a);
    KeysAfterAdd(rows, a);
    if key !in byKey {
      AddsAtEnd(rows, a);
      var row := new CandidateRow(a);
      order', byKey' := order + [row], byKey[key := row];
      assert Holds(order', added);
      IndexedOneMore(order, byKey, KeysOf(rows), row);
    } else {
      ghost var at :| 0 <= at < |rows| && KeysOf(rows)[at] == key;
      AddsAt(rows, a, at);
      IndexedApart(order, byKey, KeysOf(rows), at);
      AbsorbAt(order, byKey[key], rows, at, a);
      order', byKey' := order, byKey;
    }
  }

  lemma IndexedOneMore(order: seq<CandidateRow>, byKey: map<string, CandidateRow>, keys: seq<string>, row: CandidateRow)
    requires Indexed(order, byKey, keys) && row.identityKey !in byKey
    ensures Indexed(order + [row], byKey[row.identityKey := row], keys + [row.identityKey])
  {
  }

  lemma IndexedApart(order: seq<CandidateRow>, byKey: map<string, CandidateRow>, keys: seq<string>, at: nat)
    requires Indexed(order, byKey, keys) && at < |keys|
    ensures keys[at] in byKey && byKey[keys[at]] == order[at]
    ensures forall i :: 0 <= i < |order| && i != at ==> order[i] != order[at]
  {
    assert forall i :: 0 <= i < |order| && i != at ==> order[i].identityKey != order[at].identityKey;
  }

  method AbsorbAt(ghost order: seq<CandidateRow>, existing: CandidateRow, ghost rows: seq<Row>, ghost at: nat,
                  a: Adapted)
    requires at < |order| && order[at] == existing && Holds(order, rows)
    requires forall i :: 0 <= i < |order| && i != at ==> order[i] != order[at]
    modifies existing
    ensures Holds(order, rows[at := Repeated(rows[at], a)])
  {
    existing.Absorb(a);
  }

  lemma AddsAtEnd(rows: seq<Row>, a: Adapted)
    requires a.normalized.identityKey !in KeysOf(rows)
    ensures AddItem(rows, a) == rows + [Row(a.draft, SightingOf(a), 0)]
  {
    assert forall i :: 0 <= i < |rows| ==> Key(Sightings(rows)[i]) == KeysOf(rows)[i];
  }

  lemma AddsAt(rows: seq<Row>, a: Adapted, at: nat)
    requires at < |rows| && KeysOf(rows)[at] == a.normalized.identityKey
    requires forall i, j :: 0 <= i < j < |rows| ==> KeysOf(rows)[i] != KeysOf(rows)[j]
    ensures AddItem(rows, a) == rows[at := Repeated(rows[at], a)]
  {
    var key := a.normalized.identityKey;
    forall i | 0 <= i < |rows| && i != at
      ensures Key(Sightings(rows)[i]) != key
    {
      assert Key(Sightings(rows)[i]) == KeysOf(rows)[i];
    }
    IndexIsUnique(Sightings(rows), key, at);
  }

  lemma {:induction false} IndexIsUnique(xs: seq<Sighting>, key: string, at: nat)
    requires at < |xs| && Key(xs[at]) == key
    requires forall i :: 0 <= i < |xs| && i != at ==> Key(xs[i]) != key
    ensures IndexOf(xs, key) == Some(at)
  {
  }

  lemma KeysAfterAdd(rows: seq<Row>, a: Adapted)
    ensures var key := a.normalized.identityKey;
      KeysOf(AddItem(rows, a)) == if key in KeysOf(rows) then KeysOf(rows) else KeysOf(rows) + [key]
  {
    var key := a.normalized.identityKey;
    match IndexOf(Sightings(rows), key)
    case None =>
      forall i | 0 <= i < |rows|
        ensures KeysOf(rows)[i] != key
      {
        assert Key(Sightings(rows)[i]) != key;
      }
    case Some(i) => assert KeysOf(rows)[i] == key;
  }

  lemma AddItemPuts(rows: seq<Row>, a: Adapted)
    ensures Sightings(AddItem(rows, a)) == Put(Sightings(rows), SightingOf(a))
  {
  }

  // ----- What the deduplication guarantees -----------------------------------------------------------

  lemma {:induction false} DeduplicateCompacts(items: seq<Adapted>)
    ensures Sightings(Deduplicate(items)) == Compact(SightingsOf(items))
    ensures |Deduplicate(items)| + Duplicates(Deduplicate(items)) == |items|
  {
    if |items| != 0 {
      var n := |items| - 1;
      var rows := Deduplicate(items[..n]);
      DeduplicateCompacts(items[..n]);
      AddItemPuts(rows, items[n]);
      assert SightingsOf(items)[..n] == SightingsOf(items[..n]);
      match IndexOf(Sightings(rows), items[n].normalized.identityKey)
      case None => assert AddItem(rows, items[n])[..|rows|] == rows;
      case Some(i) =>
        DuplicatesAfterUpdate(rows, i, AddItem(rows, items[n])[i]);
    }
  }

  lemma {:induction false} DuplicatesAfterUpdate(rows: seq<Row>, i: nat, row: Row)
    requires i < |rows|
    ensures Duplicates(rows[i := row]) == Duplicates(rows) - rows[i].duplicates + row.duplicates
  {
    var n := |rows| - 1;
    if i == n {
      assert rows[i := row][..n] == rows[..n];
    } else {
      assert rows[i := row][..n] == rows[..n][i := row];
      DuplicatesAfterUpdate(rows[..n], i, row);
    }
  }

  /** Rows plus repeats plus rejections account for every item the provider's results were adapted to. */
  lemma CandidateConservation(t: Tables, projectId: nat, provider: string, results: seq<QueryResult>, rejections: nat)
    requires rejections + |AdaptAll(t, projectId, provider, results)| == ItemCount(results)
    ensures var rows := Deduplicate(AdaptAll(t, projectId, provider, results));
      |rows| + Duplicates(rows) + rejections == ItemCount(results)
  {
    DeduplicateCompacts(AdaptAll(t, projectId, provider, results));
  }

  // ----- Agreement with staging every item -------------------------------------------------------------

  function RowPayload(row: Row, runId: nat): CandidateCreate {
    CandidateCreateFromPayload(WithPosition(row.draft, row.sighting.position), runId, row.sighting.fields)
  }

  function ItemPayload(a: Adapted, runId: nat): CandidateCreate {
    CandidateCreateFromPayload(a.draft, runId, a.normalized)
  }

  /** Upserting payloads in order; the first refusal ends it. */
  function UpsertAll(t: Tables, s: Store, projectId: nat, runId: nat, payloads: seq<CandidateCreate>):
    Result<Store, RepositoryError>
  {
    if |payloads| == 0 then Ok(s)
    else match UpsertAll(t, s, projectId, runId, payloads[..|payloads| - 1])
      case Err(error) => Err(error)
      case Ok(staged) =>
        match UpsertCandidate(t, staged, projectId, runId, payloads[|payloads| - 1])
        case Err(error) => Err(error)
        case Ok(result) => Ok(result.0)
  }

  function RowPayloads(rows: seq<Row>, runId: nat): seq<CandidateCreate> {
    seq(|rows|, i requires 0 <= i < |rows| => RowPayload(rows[i], runId))
  }

  function ItemPayloads(items: seq<Adapted>, runId: nat): seq<CandidateCreate> {
    seq(|items|, i requires 0 <= i < |items| => ItemPayload(items[i], runId))
  }

  /** A sighting as the repository stores it, after normalising its fields once more. */
  function Restaged(t: Tables, x: Sighting): Sighting {
    if Restage(t, x.fields).Valid? then x.(fields := Restage(t, x.fields).value) else x
  }

  function RestagedAll(t: Tables, xs: seq<Sighting>): seq<Sighting> {
    seq(|xs|, i requires 0 <= i < |xs| => Restaged(t, xs[i]))
  }

  ghost predicate Stageable(t: Tables, x: Sighting) {
    NormalForm(t, x.fields) && Restage(t, x.fields).Valid?
  }

  /** Filling gaps and normalising again can be done in either order, for sightings of one identity. */
  lemma MergeRestages(t: Tables, a: Sighting, b: Sighting)
    requires t.Lawful() && Key(a) == Key(b) && Stageable(t, a) && Stageable(t, b)
    ensures Stageable(t, Merge(a, b))
    ensures Restaged(t, Merge(a, b)) == Merge(Restaged(t, a), Restaged(t, b))
    ensures Key(Restaged(t, a)) == Key(a)
  {
    FillKeepsNormalForm(t, a.fields, b.fields);
    RestageFields(t, a.fields);
    RestageFields(t, b.fields);
    RestageFields(t, FillMissingFields(a.fields, b.fields));
    SitesOfFill(t, a.fields, b.fields);
  }

  lemma SitesOfFill(t: Tables, a: Normalized, b: Normalized)
    requires RestageSite(t, a).Valid? && RestageSite(t, b).Valid? && (a.website.Some? <==> b.website.Some?)
    ensures RestageSite(t, FillMissingFields(a, b)) ==
            Valid(FillMissingFields(RestageSite(t, a).value, RestageSite(t, b).value))
  {
  }

  lemma FillKeepsNormalForm(t: Tables, a: Normalized, b: Normalized)
    requires NormalForm(t, a) && NormalForm(t, b) && a.identityKey == b.identityKey
    ensures NormalForm(t, FillMissingFields(a, b))
    ensures a.website.Some? <==> b.website.Some?
  {
    KeyKinds(a);
    KeyKinds(b);
  }

  /** The two kinds of key never coincide: a website key starts differently from a name-and-country key. */
  lemma KeyKinds(n: Normalized)
    requires n.identityKey == IdentityKey(n.websiteIdentity, n.normalizedName, n.countryCode)
    requires n.websiteIdentity.None? ==> n.normalizedName.Some? && n.countryCode.Some?
    ensures n.identityKey != "" && (n.identityKey[0] == 'w' <==> n.websiteIdentity.Some?)
  {
  }

  lemma {:induction false} CompactRestages(t: Tables, xs: seq<Sighting>)
    requires t.Lawful() && forall x :: x in xs ==> Stageable(t, x)
    ensures forall x :: x in Compact(xs) ==> Stageable(t, x)
    ensures RestagedAll(t, Compact(xs)) == Compact(RestagedAll(t, xs))
  {
    if |xs| != 0 {
      var n := |xs| - 1;
      CompactRestages(t, xs[..n]);
      assert RestagedAll(t, xs)[..n] == RestagedAll(t, xs[..n]);
      assert xs[n] in xs;
      PutRestages(t, Compact(xs[..n]), xs[n]);
    }
  }

  lemma PutRestages(t: Tables, rows: seq<Sighting>, x: Sighting)
    requires t.Lawful() && Stageable(t, x) && forall row :: row in rows ==> Stageable(t, row)
    ensures forall row :: row in Put(rows, x) ==> Stageable(t, row)
    ensures RestagedAll(t, Put(rows, x)) == Put(RestagedAll(t, rows), Restaged(t, x))
  {
    RestageKeepsKeys(t, rows);
    RestageFields(t, x.fields);
    SameIndex(rows, RestagedAll(t, rows), Key(x));
    match IndexOf(rows, Key(x))
    case None => RestagedAllSnoc(t, rows + [x]);
    case Some(i) =>
      assert rows[i] in rows;
      MergeRestages(t, rows[i], x);
      RestagedAllUpdate(t, rows, i, Merge(rows[i], x));
  }

  lemma RestagedAllUpdate(t: Tables, rows: seq<Sighting>, i: nat, x: Sighting)
    requires i < |rows|
    ensures RestagedAll(t, rows[i := x]) == RestagedAll(t, rows)[i := Restaged(t, x)]
    ensures forall row :: row in rows[i := x] ==> row in rows || row == x
  {
  }

  lemma RestageKeepsKeys(t: Tables, rows: seq<Sighting>)
    requires t.Lawful() && forall row :: row in rows ==> Stageable(t, row)
    ensures forall i :: 0 <= i < |rows| ==> Key(RestagedAll(t, rows)[i]) == Key(rows[i])
  {
    forall i | 0 <= i < |rows|
      ensures Key(RestagedAll(t, rows)[i]) == Key(rows[i])
    {
      assert rows[i] in rows;
      RestageFields(t, rows[i].fields);
    }
  }

  lemma {:induction false} SameIndex(xs: seq<Sighting>, ys: seq<Sighting>, key: string)
    requires |xs| == |ys| && forall i :: 0 <= i < |xs| ==> Key(xs[i]) == Key(ys[i])
    ensures IndexOf(xs, key) == IndexOf(ys, key)
  {
    if |xs| != 0 {
      SameIndex(xs[..|xs| - 1], ys[..|ys| - 1], key);
    }
  }

  /** A payload cut from a sighting is admitted when its fields normalise, and stages the sighting restaged. */
  lemma UpsertStages(t: Tables, s: Store, projectId: nat, runId: nat, payload: CandidateCreate, x: Sighting)
    requires runId in s.runs && s.runs[runId].projectId == projectId
    requires CutFrom(payload, projectId, runId, x) && Restage(t, x.fields).Valid?
    ensures var upserted := UpsertCandidate(t, s, projectId, runId, payload);
      && upserted.Ok? && upserted.value.0 == StageOne(s, projectId, runId, Restaged(t, x))
      && upserted.value.0.runs == s.runs
  {
  }

  predicate CutFrom(payload: CandidateCreate, projectId: nat, runId: nat, x: Sighting) {
    payload == CandidateCreate(projectId, runId, x.provider, x.fields.name, x.fields.website, x.fields.countryCode,
                               x.position)
  }

  /** Every payload is cut from the sighting at its place. */
  ghost predicate EachCutFrom(payloads: seq<CandidateCreate>, projectId: nat, runId: nat, xs: seq<Sighting>) {
    |payloads| == |xs| && forall i :: 0 <= i < |xs| ==> CutFrom(payloads[i], projectId, runId, xs[i])
  }

  ghost predicate AllRestageable(t: Tables, xs: seq<Sighting>) {
    forall i :: 0 <= i < |xs| ==> Restage(t, xs[i].fields).Valid?
  }

  lemma UpsertsStage(t: Tables, s: Store, projectId: nat, runId: nat, payloads: seq<CandidateCreate>, xs: seq<Sighting>)
    requires runId in s.runs && s.runs[runId].projectId == projectId
    requires EachCutFrom(payloads, projectId, runId, xs) && AllRestageable(t, xs)
    ensures UpsertAll(t, s, projectId, runId, payloads) == Ok(StageAll(s, projectId, runId, RestagedAll(t, xs)))
    ensures StageAll(s, projectId, runId, RestagedAll(t, xs)).runs == s.runs
  {
    EachIsCut(t, projectId, runId, payloads, xs);
    CutPayloadsStage(t, s, projectId, runId, payloads, xs);
  }

  /** The payloads are cut from the sightings, one by one, and every sighting's fields normalise. */
  predicate AllCutFrom(t: Tables, projectId: nat, runId: nat, payloads: seq<CandidateCreate>, xs: seq<Sighting>) {
    && |payloads| == |xs|
    && (|xs| != 0 ==>
        var n := |xs| - 1;
        && Restage(t, xs[n].fields).Valid? && CutFrom(payloads[n], projectId, runId, xs[n])
        && AllCutFrom(t, projectId, runId, payloads[..n], xs[..n]))
  }

  lemma {:induction false} EachIsCut(t: Tables, projectId: nat, runId: nat, payloads: seq<CandidateCreate>,
                                     xs: seq<Sighting>)
    requires EachCutFrom(payloads, projectId, runId, xs) && AllRestageable(t, xs)
    ensures AllCutFrom(t, projectId, runId, payloads, xs)
  {
    if |xs| != 0 {
      EachIsCut(t, projectId, runId, payloads[..|xs| - 1], xs[..|xs| - 1]);
    }
  }

  lemma {:induction false} CutPayloadsStage(t: Tables, s: Store, projectId: nat, runId: nat,
                                            payloads: seq<CandidateCreate>, xs: seq<Sighting>)
    requires runId in s.runs && s.runs[runId].projectId == projectId && AllCutFrom(t, projectId, runId, payloads, xs)
    ensures UpsertAll(t, s, projectId, runId, payloads) == Ok(StageAll(s, projectId, runId, RestagedAll(t, xs)))
    ensures StageAll(s, projectId, runId, RestagedAll(t, xs)).runs == s.runs
  {
    if |xs| != 0 {
      var n := |xs| - 1;
      CutPayloadsStage(t, s, projectId, runId, payloads[..n], xs[..n]);
      RestagedAllSnoc(t, xs);
      var staged := StageAll(s, projectId, runId, RestagedAll(t, xs[..n]));
      UpsertsStageLast(t, s, projectId, runId, payloads, staged, xs[n]);
      StageAllSnoc(s, projectId, runId, RestagedAll(t, xs[..n]), Restaged(t, xs[n]));
    }
  }

  lemma UpsertsStageLast(t: Tables, s: Store, projectId: nat, runId: nat, payloads: seq<CandidateCreate>, before: Store,
                         x: Sighting)
    requires |payloads| != 0 && UpsertAll(t, s, projectId, runId, payloads[..|payloads| - 1]) == Ok(before)
    requires runId in before.runs && before.runs[runId].projectId == projectId
    requires CutFrom(payloads[|payloads| - 1], projectId, runId, x) && Restage(t, x.fields).Valid?
    ensures UpsertAll(t, s, projectId, runId, payloads) == Ok(StageOne(before, projectId, runId, Restaged(t, x)))
    ensures StageOne(before, projectId, runId, Restaged(t, x)).runs == before.runs
  {
    UpsertStages(t, before, projectId, runId, payloads[|payloads| - 1], x);
    UpsertsThenOne(t, s, projectId, runId, payloads, before, StageOne(before, projectId, runId, Restaged(t, x)));
  }

  lemma UpsertsThenOne(t: Tables, s: Store, projectId: nat, runId: nat, payloads: seq<CandidateCreate>, before: Store,
                       after: Store)
    requires |payloads| != 0 && UpsertAll(t, s, projectId, runId, payloads[..|payloads| - 1]) == Ok(before)
    requires UpsertCandidate(t, before, projectId, runId, payloads[|payloads| - 1]).Ok?
    requires UpsertCandidate(t, before, projectId, runId, payloads[|payloads| - 1]).value.0 == after
    ensures UpsertAll(t, s, projectId, runId, payloads) == Ok(after)
  {
  }

  lemma RestagedAllSnoc(t: Tables, xs: seq<Sighting>)
    requires |xs| != 0
    ensures RestagedAll(t, xs) == RestagedAll(t, xs[..|xs| - 1]) + [Restaged(t, xs[|xs| - 1])]
  {
  }

  lemma StageAllSnoc(s: Store, projectId: nat, runId: nat, xs: seq<Sighting>, x: Sighting)
    ensures StageAll(s, projectId, runId, xs + [x]) == StageOne(StageAll(s, projectId, runId, xs), projectId, runId, x)
  {
    assert (xs + [x])[..|xs|] == xs;
  }

  lemma {:induction false} PositionsAgree(items: seq<Adapted>)
    ensures forall row :: row in Deduplicate(items) ==>
      && row.draft.position == row.sighting.position && row.draft.provider == row.sighting.provider
    ensures forall row :: row in Deduplicate(items) ==> exists a ::
      a in items && a.draft.(position := None) == row.draft.(position := None)
  {
    if |items| != 0 {
      PositionsAgree(items[..|items| - 1]);
    }
  }

  /** A payload whose fields do not normalise is refused whatever the tables hold. */
  predicate Refused(t: Tables, payload: CandidateCreate) {
    NormalizeCandidateIdentity(t, payload.name, payload.website, payload.countryCode).Invalid?
  }

  lemma TakenPayload(t: Tables, s: Store, projectId: nat, runId: nat, payload: CandidateCreate)
    requires UpsertCandidate(t, s, projectId, runId, payload).Ok?
    ensures !Refused(t, payload)
  {
  }

  lemma {:induction false} UpsertsReach(t: Tables, s: Store, projectId: nat, runId: nat, payloads: seq<CandidateCreate>,
                                        k: nat)
    requires k <= |payloads| && UpsertAll(t, s, projectId, runId, payloads).Ok?
    ensures UpsertAll(t, s, projectId, runId, payloads[..k]).Ok?
    decreases |payloads|
  {
    var n := |payloads| - 1;
    if k <= n {
      UpsertsReach(t, s, projectId, runId, payloads[..n], k);
      assert payloads[..n][..k] == payloads[..k];
    } else {
      assert payloads[..k] == payloads;
    }
  }

  lemma UpsertsTakeEach(t: Tables, s: Store, projectId: nat, runId: nat, payloads: seq<CandidateCreate>, i: nat)
    requires i < |payloads| && UpsertAll(t, s, projectId, runId, payloads).Ok?
    ensures !Refused(t, payloads[i])
  {
    var reached := payloads[..i + 1];
    UpsertsReach(t, s, projectId, runId, payloads, i + 1);
    UpsertAllSnoc(t, s, projectId, runId, reached);
    TakenPayload(t, UpsertAll(t, s, projectId, runId, reached[..|reached| - 1]).value, projectId, runId, reached[i]);
  }

  lemma UpsertAllSnoc(t: Tables, s: Store, projectId: nat, runId: nat, payloads: seq<CandidateCreate>)
    requires |payloads| != 0
    ensures UpsertAll(t, s, projectId, runId, payloads).Ok? ==>
      var front := UpsertAll(t, s, projectId, runId, payloads[..|payloads| - 1]);
      front.Ok? && UpsertCandidate(t, front.value, projectId, runId, payloads[|payloads| - 1]).Ok?
  {
  }

  /** Payloads cut from sightings are all taken exactly when every sighting's fields normalise once more. */
  lemma UpsertsExactlyWhenRestageable(t: Tables, s: Store, projectId: nat, runId: nat, payloads: seq<CandidateCreate>,
                                      xs: seq<Sighting>)
    requires runId in s.runs && s.runs[runId].projectId == projectId && EachCutFrom(payloads, projectId, runId, xs)
    ensures UpsertAll(t, s, projectId, runId, payloads).Ok? <==> AllRestageable(t, xs)
    ensures UpsertAll(t, s, projectId, runId, payloads).Ok? ==>
      UpsertAll(t, s, projectId, runId, payloads).value.runs == s.runs
  {
    if UpsertAll(t, s, projectId, runId, payloads).Ok? {
      forall i | 0 <= i < |xs|
        ensures Restage(t, xs[i].fields).Valid?
      {
        UpsertsTakeEach(t, s, projectId, runId, payloads, i);
        assert CutFrom(payloads[i], projectId, runId, xs[i]);
      }
    }
    if AllRestageable(t, xs) {
      UpsertsStage(t, s, projectId, runId, payloads, xs);
    }
  }

  lemma RestageableRows(t: Tables, rows: seq<Row>)
    ensures AllRestageable(t, Sightings(rows)) <==> forall row :: row in rows ==> Restage(t, row.sighting.fields).Valid?
  {
    assert forall i :: 0 <= i < |rows| ==> Sightings(rows)[i] == rows[i].sighting && rows[i] in rows;
    if AllRestageable(t, Sightings(rows)) {
      forall row | row in rows
        ensures Restage(t, row.sighting.fields).Valid?
      {
        var i :| 0 <= i < |rows| && rows[i] == row;
        assert Restage(t, Sightings(rows)[i].fields).Valid?;
      }
    }
  }

  lemma RestageableItems(t: Tables, items: seq<Adapted>)
    ensures AllRestageable(t, SightingsOf(items)) <==> forall a :: a in items ==> Restage(t, a.normalized).Valid?
  {
    assert forall i :: 0 <= i < |items| ==> SightingsOf(items)[i].fields == items[i].normalized && items[i] in items;
    if AllRestageable(t, SightingsOf(items)) {
      forall a | a in items
        ensures Restage(t, a.normalized).Valid?
      {
        var i :| 0 <= i < |items| && items[i] == a;
        assert Restage(t, SightingsOf(items)[i].fields).Valid?;
      }
    }
  }

  lemma ItemsAreCut(projectId: nat, runId: nat, items: seq<Adapted>)
    requires forall a :: a in items ==> a.draft.projectId == projectId
    ensures EachCutFrom(ItemPayloads(items, runId), projectId, runId, SightingsOf(items))
  {
    assert forall i :: 0 <= i < |items| ==> items[i] in items;
  }

  lemma RowsAreCut(projectId: nat, runId: nat, items: seq<Adapted>)
    requires forall a :: a in items ==> a.draft.projectId == projectId
    ensures EachCutFrom(RowPayloads(Deduplicate(items), runId), projectId, runId, Sightings(Deduplicate(items)))
  {
    var rows := Deduplicate(items);
    PositionsAgree(items);
    assert forall i :: 0 <= i < |rows| ==> rows[i] in rows;
  }

  lemma AcceptedItemsAgree(t: Tables, s: Store, projectId: nat, runId: nat, items: seq<Adapted>)
    requires t.Lawful() && IdsBounded(s) && runId in s.runs && s.runs[runId].projectId == projectId
    requires forall a :: a in items ==> WellAdapted(t, projectId, a) && Restage(t, a.normalized).Valid?
    ensures UpsertAll(t, s, projectId, runId, RowPayloads(Deduplicate(items), runId)) ==
            UpsertAll(t, s, projectId, runId, ItemPayloads(items, runId))
  {
    var xs := SightingsOf(items);
    ItemsAreStageable(t, projectId, items);
    ItemsAreCut(projectId, runId, items);
    RestageableItems(t, items);
    UpsertsStage(t, s, projectId, runId, ItemPayloads(items, runId), xs);
    CompactRestages(t, xs);
    CompactIsRestageable(t, xs);
    DeduplicateCompacts(items);
    RowsAreCut(projectId, runId, items);
    UpsertsStage(t, s, projectId, runId, RowPayloads(Deduplicate(items), runId), Compact(xs));
    CompactStagesTheSame(s, projectId, runId, RestagedAll(t, xs));
  }

  lemma ItemsAreStageable(t: Tables, projectId: nat, items: seq<Adapted>)
    requires forall a :: a in items ==> WellAdapted(t, projectId, a) && Restage(t, a.normalized).Valid?
    ensures forall x :: x in SightingsOf(items) ==> Stageable(t, x)
  {
    var xs := SightingsOf(items);
    forall x | x in xs
      ensures Stageable(t, x)
    {
      var i :| 0 <= i < |xs| && xs[i] == x;
      assert items[i] in items;
    }
  }

  lemma CompactIsRestageable(t: Tables, xs: seq<Sighting>)
    requires forall x :: x in Compact(xs) ==> Stageable(t, x)
    ensures AllRestageable(t, Compact(xs))
  {
    forall i | 0 <= i < |Compact(xs)|
      ensures Restage(t, Compact(xs)[i].fields).Valid?
    {
      assert Stageable(t, Compact(xs)[i]);
    }
  }

  /**
   Deduplicating a run in memory and upserting each row once leaves exactly the table that upserting every
   accepted item in order leaves, whatever rows it held before, unless the repository refuses one of the items.
   Each way raises exactly when something it upserts does not normalise a second time.
   */
  lemma DeduplicationAgreesWithUpserts(t: Tables, s: Store, projectId: nat, runId: nat, items: seq<Adapted>)
    requires t.Lawful() && IdsBounded(s) && runId in s.runs && s.runs[runId].projectId == projectId
    requires forall a :: a in items ==> WellAdapted(t, projectId, a)
    ensures var each := UpsertAll(t, s, projectId, runId, ItemPayloads(items, runId));
      var once := UpsertAll(t, s, projectId, runId, RowPayloads(Deduplicate(items), runId));
      && (each.Ok? <==> forall a :: a in items ==> Restage(t, a.normalized).Valid?)
      && (once.Ok? <==> forall row :: row in Deduplicate(items) ==> Restage(t, row.sighting.fields).Valid?)
      && (each.Ok? ==> once == each)
  {
    ItemsUpsertExactlyWhenRestageable(t, s, projectId, runId, items);
    RowsUpsertExactlyWhenRestageable(t, s, projectId, runId, items);
    if UpsertAll(t, s, projectId, runId, ItemPayloads(items, runId)).Ok? {
      AcceptedItemsAgree(t, s, projectId, runId, items);
    }
  }

  lemma RowsUpsertExactlyWhenRestageable(t: Tables, s: Store, projectId: nat, runId: nat, items: seq<Adapted>)
    requires runId in s.runs && s.runs[runId].projectId == projectId
    requires forall a :: a in items ==> a.draft.projectId == projectId
    ensures UpsertAll(t, s, projectId, runId, RowPayloads(Deduplicate(items), runId)).Ok? <==>
            forall row :: row in Deduplicate(items) ==> Restage(t, row.sighting.fields).Valid?
  {
    var rows := Deduplicate(items);
    RowsAreCut(projectId, runId, items);
    UpsertsExactlyWhenRestageable(t, s, projectId, runId, RowPayloads(rows, runId), Sightings(rows));
    RestageableRows(t, rows);
  }

  lemma ItemsUpsertExactlyWhenRestageable(t: Tables, s: Store, projectId: nat, runId: nat, items: seq<Adapted>)
    requires runId in s.runs && s.runs[runId].projectId == projectId
    requires forall a :: a in items ==> a.draft.projectId == projectId
    ensures UpsertAll(t, s, projectId, runId, ItemPayloads(items, runId)).Ok? <==>
            forall a :: a in items ==> Restage(t, a.normalized).Valid?
  {
    ItemsAreCut(projectId, runId, items);
    UpsertsExactlyWhenRestageable(t, s, projectId, runId, ItemPayloads(items, runId), SightingsOf(items));
    RestageableItems(t, items);
  }

  // ----- Where the two ways differ ----------------------------------------------------------------------

  /** No item before it has its identity. */
  predicate IsFirst(items: seq<Adapted>, i: nat)
    requires i < |items|
  {
    forall j :: 0 <= j < i ==> items[j].normalized.identityKey != items[i].normalized.identityKey
  }

  predicate Restages(t: Tables, n: Normalized) {
    Restage(t, n).Valid?
  }

  predicate FirstsRestage(t: Tables, items: seq<Adapted>) {
    forall i :: 0 <= i < |items| && IsFirst(items, i) ==> Restages(t, items[i].normalized)
  }

  predicate RowsRestage(t: Tables, rows: seq<Row>) {
    forall k :: 0 <= k < |rows| ==> Restages(t, rows[k].sighting.fields)
  }

  ghost predicate RowsNormal(t: Tables, rows: seq<Row>) {
    forall k :: 0 <= k < |rows| ==> NormalForm(t, rows[k].sighting.fields)
  }

  function ItemKeys(items: seq<Adapted>): seq<string> {
    seq(|items|, i requires 0 <= i < |items| => items[i].normalized.identityKey)
  }

  lemma {:induction false} RowsHaveItemKeys(items: seq<Adapted>)
    ensures forall key :: key in KeysOf(Deduplicate(items)) <==> key in ItemKeys(items)
  {
    if |items| != 0 {
      var front, a := items[..|items| - 1], items[|items| - 1];
      RowsHaveItemKeys(front);
      KeysAfterAdd(Deduplicate(front), a);
      assert ItemKeys(items) == ItemKeys(front) + [a.normalized.identityKey];
    }
  }

  lemma {:induction false} RowsAreNormal(t: Tables, items: seq<Adapted>)
    requires t.Lawful() && forall a :: a in items ==> NormalForm(t, a.normalized)
    ensures RowsNormal(t, Deduplicate(items))
  {
    if |items| != 0 {
      RowsAreNormal(t, items[..|items| - 1]);
      assert items[|items| - 1] in items;
      RowsAfterAdd(t, Deduplicate(items[..|items| - 1]), items[|items| - 1]);
    }
  }

  /** Every row of the deduplicated run normalises once more exactly if the first item of every identity does. */
  lemma {:induction false} RowsRestageAsFirstsDo(t: Tables, items: seq<Adapted>)
    requires t.Lawful() && forall a :: a in items ==> NormalForm(t, a.normalized)
    ensures RowsRestage(t, Deduplicate(items)) <==> FirstsRestage(t, items)
  {
    if |items| != 0 {
      var front, a := items[..|items| - 1], items[|items| - 1];
      assert a in items && items == front + [a];
      RowsRestageAsFirstsDo(t, front);
      RowsAreNormal(t, front);
      RowsHaveItemKeys(front);
      FirstsOfMore(t, front, a);
      DeduplicateSnoc(front, a);
      RowsAfterAdd(t, Deduplicate(front), a);
    }
  }

  lemma FirstsOfMore(t: Tables, front: seq<Adapted>, a: Adapted)
    ensures FirstsRestage(t, front + [a]) <==>
      FirstsRestage(t, front) && (a.normalized.identityKey !in ItemKeys(front) ==> Restages(t, a.normalized))
  {
    var items := front + [a];
    assert items[|front|] == a && forall i :: 0 <= i < |front| ==> items[i] == front[i];
    assert forall i :: 0 <= i < |front| ==> (IsFirst(items, i) <==> IsFirst(front, i));
    assert forall i :: 0 <= i < |front| ==> ItemKeys(front)[i] == front[i].normalized.identityKey;
    assert IsFirst(items, |front|) <==> a.normalized.identityKey !in ItemKeys(front);
  }

  lemma RowsAfterAdd(t: Tables, rows: seq<Row>, a: Adapted)
    requires t.Lawful() && RowsNormal(t, rows) && NormalForm(t, a.normalized)
    ensures RowsNormal(t, AddItem(rows, a))
    ensures RowsRestage(t, AddItem(rows, a)) <==>
      RowsRestage(t, rows) && (a.normalized.identityKey !in KeysOf(rows) ==> Restages(t, a.normalized))
  {
    var key := a.normalized.identityKey;
    match IndexOf(Sightings(rows), key)
    case None =>
      assert key !in KeysOf(rows) by {
        assert forall i :: 0 <= i < |rows| ==> KeysOf(rows)[i] == Key(Sightings(rows)[i]);
      }
      RowsRestageWithOneMore(t, rows, Row(a.draft, SightingOf(a), 0));
    case Some(at) =>
      assert KeysOf(rows)[at] == key;
      FilledRestages(t, rows[at].sighting.fields, a.normalized);
      FillKeepsNormalForm(t, rows[at].sighting.fields, a.normalized);
      RowsRestageWithOneChanged(t, rows, at, Repeated(rows[at], a));
  }

  lemma RowsRestageWithOneMore(t: Tables, rows: seq<Row>, row: Row)
    requires RowsNormal(t, rows) && NormalForm(t, row.sighting.fields)
    ensures RowsNormal(t, rows + [row])
    ensures RowsRestage(t, rows + [row]) <==> RowsRestage(t, rows) && Restages(t, row.sighting.fields)
  {
    var more := rows + [row];
    assert more[|rows|] == row && forall k :: 0 <= k < |rows| ==> more[k] == rows[k];
  }

  lemma RowsRestageWithOneChanged(t: Tables, rows: seq<Row>, at: nat, row: Row)
    requires at < |rows| && RowsNormal(t, rows) && NormalForm(t, row.sighting.fields)
    requires Restages(t, row.sighting.fields) <==> Restages(t, rows[at].sighting.fields)
    ensures RowsNormal(t, rows[at := row])
    ensures RowsRestage(t, rows[at := row]) <==> RowsRestage(t, rows)
  {
    var changed := rows[at := row];
    assert changed[at] == row && forall k :: 0 <= k < |rows| && k != at ==> changed[k] == rows[k];
    if RowsRestage(t, changed) {
      forall k | 0 <= k < |rows|
        ensures Restages(t, rows[k].sighting.fields)
      {
        assert Restages(t, changed[k].sighting.fields);
      }
    }
  }

  /**
   The deduplicated run is stored where its items, one by one, would be refused exactly when the first item of every
   identity normalises once more and some repeat does not. It is never the other way round.
   */
  lemma DifferExactlyOnRefusedRepeats(t: Tables, s: Store, projectId: nat, runId: nat, items: seq<Adapted>)
    requires t.Lawful() && IdsBounded(s) && runId in s.runs && s.runs[runId].projectId == projectId
    requires forall a :: a in items ==> WellAdapted(t, projectId, a)
    ensures var each := UpsertAll(t, s, projectId, runId, ItemPayloads(items, runId));
      var once := UpsertAll(t, s, projectId, runId, RowPayloads(Deduplicate(items), runId));
      && (each.Ok? ==> once.Ok?)
      && (once.Ok? && each.Err? <==>
          && FirstsRestage(t, items)
          && exists i :: 0 <= i < |items| && !IsFirst(items, i) && !Restages(t, items[i].normalized))
  {
    DeduplicationAgreesWithUpserts(t, s, projectId, runId, items);
    RowsRestageAsFirstsDo(t, items);
    ByIndex(t, items, Deduplicate(items));
  }

  lemma ByIndex(t: Tables, items: seq<Adapted>, rows: seq<Row>)
    ensures (forall a :: a in items ==> Restage(t, a.normalized).Valid?) <==>
            (forall i :: 0 <= i < |items| ==> Restages(t, items[i].normalized))
    ensures (forall row :: row in rows ==> Restage(t, row.sighting.fields).Valid?) <==> RowsRestage(t, rows)
  {
    if forall i :: 0 <= i < |items| ==> Restages(t, items[i].normalized) {
      forall a | a in items
        ensures Restage(t, a.normalized).Valid?
      {
        var i :| 0 <= i < |items| && items[i] == a;
        assert Restages(t, items[i].normalized);
      }
    }
    if RowsRestage(t, rows) {
      forall row | row in rows
        ensures Restage(t, row.sighting.fields).Valid?
      {
        var k :| 0 <= k < |rows| && rows[k] == row;
        assert Restages(t, rows[k].sighting.fields);
      }
    }
  }

  /**
   The two ways differ on an item that is refused by itself but only repeats the website of an earlier,
   accepted one.
   */
  lemma RefusedRepeatIsAbsorbed(t: Tables, s: Store, projectId: nat, runId: nat, a: Adapted, b: Adapted)
    requires t.Lawful() && IdsBounded(s) && runId in s.runs && s.runs[runId].projectId == projectId
    requires WellAdapted(t, projectId, a) && WellAdapted(t, projectId, b)
      && a.normalized.identityKey == b.normalized.identityKey
    requires Restage(t, a.normalized).Valid? && Restage(t, b.normalized).Invalid?
    ensures UpsertAll(t, s, projectId, runId, ItemPayloads([a, b], runId)).Err?
    ensures UpsertAll(t, s, projectId, runId, RowPayloads(Deduplicate([a, b]), runId)).Ok?
  {
    ItemsUpsertExactlyWhenRestageable(t, s, projectId, runId, [a, b]);
    assert b in [a, b];
    RowsUpsertExactlyWhenRestageable(t, s, projectId, runId, [a, b]);
    RepeatKeepsTheRow(a, b);
    FilledRestages(t, a.normalized, b.normalized);
  }

  /** A candidate with gaps filled from another of its identity normalises exactly if it did before. */
  lemma FilledRestages(t: Tables, a: Normalized, b: Normalized)
    requires t.Lawful() && NormalForm(t, a) && NormalForm(t, b) && a.identityKey == b.identityKey
    ensures Restage(t, FillMissingFields(a, b)).Valid? <==> Restage(t, a).Valid?
  {
    FillKeepsNormalForm(t, a, b);
    RestageFields(t, a);
    RestageFields(t, FillMissingFields(a, b));
  }

  lemma RepeatKeepsTheRow(a: Adapted, b: Adapted)
    requires a.normalized.identityKey == b.normalized.identityKey
    ensures Deduplicate([a, b]) == [Repeated(Row(a.draft, SightingOf(a), 0), b)]
  {
    var first := Row(a.draft, SightingOf(a), 0);
    assert Deduplicate([]) == [];
    assert [a, b] == [a] + [b] && [a] == [] + [a];
    DeduplicateSnoc([], a);
    DeduplicateSnoc([a], b);
    AddsAtEnd([], a);
    AddsAt([first], b, 0);
  }
}
