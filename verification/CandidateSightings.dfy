/** What candidate rows say of the sightings behind them, stored and deduplicated ones, column by column. */
module CandidateSightings {
  import opened Common
  import opened Platform
  import opened StagingNormalization
  import opened DiscoveryTables
  import opened StagingAdapter
  import opened StagingMerge
  import opened StagingDeduplication
  import opened CandidateLifecycle
  import opened CompanyApplyGuarantees

  // ----- The lowest position and the first value ------------------------------------------------------

  /** The lowest of the positions given, none if none is. */
  ghost predicate IsLowest(position: Option<nat>, given: seq<Option<nat>>) {
    && (position.None? <==> forall i :: 0 <= i < |given| ==> given[i].None?)
    && (position.Some? ==>
        position in given && forall i :: 0 <= i < |given| && given[i].Some? ==> position.value <= given[i].value)
  }

  /** The first value present in a list. */
  function FirstPresent(values: seq<Option<string>>): Option<string> {
    if |values| == 0 then None else if values[0].Some? then values[0] else FirstPresent(values[1..])
  }

  lemma LowestOfOne(position: Option<nat>)
    ensures IsLowest(position, [position])
  {
    assert position in [position];
    assert [position][0] == position;
  }

  lemma OneMoreLowest(position: Option<nat>, given: seq<Option<nat>>, next: Option<nat>)
    requires IsLowest(position, given)
    ensures IsLowest(BestPosition(position, next), given + [next])
  {
    var all := given + [next];
    var best := BestPosition(position, next);
    assert all[|given|] == next;
    assert forall i :: 0 <= i < |given| ==> all[i] == given[i];
    if best.Some? {
      assert best == next || best in given;
    } else {
      assert position.None? && next.None?;
    }
    if position.Some? {
      var i :| 0 <= i < |given| && given[i] == position;
      assert all[i].Some?;
    }
  }

  lemma {:induction false} OneMorePresent(values: seq<Option<string>>, next: Option<string>)
    ensures FirstPresent(values + [next]) == if FirstPresent(values).Some? then FirstPresent(values) else next
  {
    if |values| != 0 && values[0].None? {
      assert (values + [next])[1..] == values[1..] + [next];
      OneMorePresent(values[1..], next);
    }
  }

  // ----- One upsert -----------------------------------------------------------------------------------

  /** A column of a DISCOVERED row keeps its value and is filled only where it had none. */
  predicate Filled(after: Option<string>, before: Option<string>, seen: Option<string>) {
    && (after.Some? <==> before.Some? || seen.Some?)
    && (before.Some? ==> after == before)
    && (before.None? ==> after == seen)
  }

  predicate ColumnsFilled(after: Normalized, before: Normalized, seen: Normalized) {
    && Filled(after.name, before.name, seen.name)
    && Filled(after.normalizedName, before.normalizedName, seen.normalizedName)
    && Filled(after.website, before.website, seen.website)
    && Filled(after.websiteIdentity, before.websiteIdentity, seen.websiteIdentity)
    && Filled(after.countryCode, before.countryCode, seen.countryCode)
    && after.identityKey == before.identityKey
  }

  /** A row as its first sighting leaves it. */
  predicate FirstSeen(row: Candidate, projectId: nat, runId: nat, data: CandidateCreate, n: Normalized) {
    && row.projectId == projectId && row.firstSeenRun == row.lastSeenRun == runId && row.provider == data.provider
    && row.fields == n && row.bestPosition == data.position && row.status == Discovered && row.promotedCompany == None
  }

  /** A row that was there, as a further sighting leaves it. */
  ghost predicate SeenOnceMore(after: Candidate, before: Candidate, runId: nat, data: CandidateCreate, n: Normalized) {
    && after.projectId == before.projectId && after.firstSeenRun == before.firstSeenRun && after.lastSeenRun == runId
    && after.provider == before.provider && after.status == before.status
    && after.promotedCompany == before.promotedCompany
    && IsLowest(after.bestPosition, [before.bestPosition, data.position])
    && (if before.status == Discovered then ColumnsFilled(after.fields, before.fields, n)
        else after.fields == before.fields)
  }

  /**
   What an accepted upsert writes: the one row of the identity, new or filled and moved to the lower position, and
   nothing else in the tables; and what it reports about it.
   */
  lemma UpsertWrites(t: Tables, s: Store, projectId: nat, runId: nat, data: CandidateCreate)
    requires Inv(s) && UpsertCandidate(t, s, projectId, runId, data).Ok?
    ensures NormalizeCandidateIdentity(t, data.name, data.website, data.countryCode).Valid?
    ensures var (after, result) := UpsertCandidate(t, s, projectId, runId, data).value;
      var n := NormalizeCandidateIdentity(t, data.name, data.website, data.countryCode).value;
      var id := result.candidateId;
      && after == s.(candidates := after.candidates, nextCandidate := after.nextCandidate)
      && id in after.candidates && HasKey(after.candidates[id], projectId, n.identityKey)
      && after.candidates == s.candidates[id := after.candidates[id]]
      && result.created == (id !in s.candidates)
      && result.updated == (id in s.candidates && after.candidates[id] != s.candidates[id])
      && result.isProtected == (id in s.candidates && s.candidates[id].status != Discovered)
      && (if id in s.candidates
          then HasKey(s.candidates[id], projectId, n.identityKey) && after.nextCandidate == s.nextCandidate
               && SeenOnceMore(after.candidates[id], s.candidates[id], runId, data, n)
          else id == s.nextCandidate && after.nextCandidate == id + 1
               && (forall other :: other in s.candidates ==> !HasKey(s.candidates[other], projectId, n.identityKey))
               && FirstSeen(after.candidates[id], projectId, runId, data, n))
  {
    var n := NormalizeCandidateIdentity(t, data.name, data.website, data.countryCode).value;
    assert forall id :: id in s.candidates ==> RowIntact(s, id, s.candidates[id]);
    match FindByKey(s.candidates, s.nextCandidate, projectId, n.identityKey)
    case Some(id) =>
      LowestOfOne(s.candidates[id].bestPosition);
      OneMoreLowest(s.candidates[id].bestPosition, [s.candidates[id].bestPosition], data.position);
      assert [s.candidates[id].bestPosition] + [data.position] == [s.candidates[id].bestPosition, data.position];
    case None =>
  }

  // ----- Over any steps -------------------------------------------------------------------------------

  /** The positions a row was seen at in some steps. */
  function PositionsSeen(t: Tables, s: Store, steps: seq<Step>, id: nat): seq<Option<nat>> {
    if |steps| == 0 then if id in s.candidates then [s.candidates[id].bestPosition] else []
    else
      var front, step := steps[..|steps| - 1], steps[|steps| - 1];
      PositionsSeen(t, s, front, id) + if Touches(t, Trace(t, s, front), step, id) then [step.data.position] else []
  }

  /** Whatever else happens, a row's position is the lowest of all it was ever seen at. */
  lemma {:induction false} PositionIsTheLowestSeen(t: Tables, s: Store, steps: seq<Step>, id: nat)
    requires Inv(s)
    ensures id in Trace(t, s, steps).candidates ==>
      IsLowest(Trace(t, s, steps).candidates[id].bestPosition, PositionsSeen(t, s, steps, id))
    ensures id !in Trace(t, s, steps).candidates ==> PositionsSeen(t, s, steps, id) == []
  {
    if |steps| == 0 {
      if id in s.candidates {
        LowestOfOne(s.candidates[id].bestPosition);
      }
    } else {
      var front, step := steps[..|steps| - 1], steps[|steps| - 1];
      PositionIsTheLowestSeen(t, s, front, id);
      LifecycleIsSafe(t, s, front);
      if step.Upsert? {
        UpsertMovesPosition(t, Trace(t, s, front), step, id, PositionsSeen(t, s, front, id));
      } else {
        SightingsMoveOnlyByUpsert(t, Trace(t, s, front), step);
        assert PositionsSeen(t, s, front, id) + [] == PositionsSeen(t, s, front, id);
      }
    }
  }

  lemma UpsertMovesPosition(t: Tables, s: Store, step: Step, id: nat, seen: seq<Option<nat>>)
    requires Inv(s) && step.Upsert?
    requires id in s.candidates ==> IsLowest(s.candidates[id].bestPosition, seen)
    requires id !in s.candidates ==> seen == []
    ensures var after := Next(t, s, step);
      var now := seen + if Touches(t, s, step, id) then [step.data.position] else [];
      && (id in after.candidates ==> IsLowest(after.candidates[id].bestPosition, now))
      && (id !in after.candidates ==> now == [])
  {
    if UpsertCandidate(t, s, step.projectId, step.runId, step.data).Ok? {
      UpsertWrites(t, s, step.projectId, step.runId, step.data);
      if Touches(t, s, step, id) {
        if id in s.candidates {
          OneMoreLowest(s.candidates[id].bestPosition, seen, step.data.position);
          LowestIsUnique(Next(t, s, step).candidates[id].bestPosition, s.candidates[id].bestPosition,
                         step.data.position);
        } else {
          LowestOfOne(step.data.position);
          assert seen + [step.data.position] == [step.data.position];
        }
      } else {
        assert seen + [] == seen;
      }
    } else {
      assert seen + [] == seen;
    }
  }

  lemma LowestIsUnique(position: Option<nat>, a: Option<nat>, b: Option<nat>)
    requires IsLowest(position, [a, b])
    ensures position == BestPosition(a, b)
  {
    var given := [a, b];
    assert given[0] == a && given[1] == b;
  }

  // ----- Deduplicated rows ----------------------------------------------------------------------------

  function OfIdentity(items: seq<Adapted>, key: string): seq<Adapted> {
    if |items| == 0 then []
    else
      var last := items[|items| - 1];
      OfIdentity(items[..|items| - 1], key) + if last.normalized.identityKey == key then [last] else []
  }

  function Positions(items: seq<Adapted>): seq<Option<nat>> {
    seq(|items|, i requires 0 <= i < |items| => items[i].draft.position)
  }

  function Column(items: seq<Adapted>, column: Normalized -> Option<string>): seq<Option<string>> {
    seq(|items|, i requires 0 <= i < |items| => column(items[i].normalized))
  }

  function NameOf(n: Normalized): Option<string> {
    n.name
  }

  function NormalizedNameOf(n: Normalized): Option<string> {
    n.normalizedName
  }

  function WebsiteOf(n: Normalized): Option<string> {
    n.website
  }

  function WebsiteIdentityOf(n: Normalized): Option<string> {
    n.websiteIdentity
  }

  function CountryOf(n: Normalized): Option<string> {
    n.countryCode
  }

  /**
   What a row says of the items of its identity: the lowest position, in each column the first value present, the
   texts of the first item, and how many repeats there were.
   */
  ghost predicate SaysOf(row: Row, same: seq<Adapted>) {
    && |same| > 0 && row.duplicates == |same| - 1
    && IsLowest(row.sighting.position, Positions(same))
    && row.draft == same[0].draft.(position := row.draft.position) && row.draft.position == row.sighting.position
    && row.sighting.provider == same[0].draft.provider
    && row.sighting.fields.identityKey == same[0].normalized.identityKey
    && row.sighting.fields.name == FirstPresent(Column(same, NameOf))
    && row.sighting.fields.normalizedName == FirstPresent(Column(same, NormalizedNameOf))
    && row.sighting.fields.website == FirstPresent(Column(same, WebsiteOf))
    && row.sighting.fields.websiteIdentity == FirstPresent(Column(same, WebsiteIdentityOf))
    && row.sighting.fields.countryCode == FirstPresent(Column(same, CountryOf))
  }

  lemma FirstSaysOf(a: Adapted)
    ensures SaysOf(Row(a.draft, SightingOf(a), 0), [a])
  {
    LowestOfOne(a.draft.position);
    assert Positions([a]) == [a.draft.position];
    assert [] + [a] == [a];
    OneMoreInColumn([], a, NameOf);
    OneMoreInColumn([], a, NormalizedNameOf);
    OneMoreInColumn([], a, WebsiteOf);
    OneMoreInColumn([], a, WebsiteIdentityOf);
    OneMoreInColumn([], a, CountryOf);
  }

  lemma OneMoreInColumn(same: seq<Adapted>, a: Adapted, column: Normalized -> Option<string>)
    ensures FirstPresent(Column(same + [a], column)) ==
      if FirstPresent(Column(same, column)).Some? then FirstPresent(Column(same, column)) else column(a.normalized)
  {
    assert Column(same + [a], column) == Column(same, column) + [column(a.normalized)];
    OneMorePresent(Column(same, column), column(a.normalized));
  }

  lemma RepeatedSaysOf(row: Row, same: seq<Adapted>, a: Adapted)
    requires SaysOf(row, same)
    ensures SaysOf(Repeated(row, a), same + [a])
  {
    OneMoreLowest(row.sighting.position, Positions(same), a.draft.position);
    assert Positions(same + [a]) == Positions(same) + [a.draft.position];
    OneMoreInColumn(same, a, NameOf);
    OneMoreInColumn(same, a, NormalizedNameOf);
    OneMoreInColumn(same, a, WebsiteOf);
    OneMoreInColumn(same, a, WebsiteIdentityOf);
    OneMoreInColumn(same, a, CountryOf);
    assert (same + [a])[0] == same[0];
  }

  ghost predicate RowsSay(rows: seq<Row>, items: seq<Adapted>) {
    forall i :: 0 <= i < |rows| ==> SaysOf(rows[i], OfIdentity(items, Key(rows[i].sighting)))
  }

  predicate OneRowEach(rows: seq<Row>) {
    forall i, j :: 0 <= i < j < |rows| ==> Key(rows[i].sighting) != Key(rows[j].sighting)
  }

  predicate HasRow(rows: seq<Row>, key: string) {
    exists i :: 0 <= i < |rows| && Key(rows[i].sighting) == key
  }

  /** Each deduplicated row says what the items of its identity say, and every item has the one row of its identity. */
  lemma {:induction false} RowsSayOfTheirItems(items: seq<Adapted>)
    ensures RowsSay(Deduplicate(items), items) && OneRowEach(Deduplicate(items))
    ensures forall a :: a in items ==> HasRow(Deduplicate(items), a.normalized.identityKey)
  {
    if |items| != 0 {
      var n := |items| - 1;
      RowsSayOfTheirItems(items[..n]);
      assert items == items[..n] + [items[n]];
      var before := Deduplicate(items[..n]);
      assert forall i :: 0 <= i < |before| ==> Key(Sightings(before)[i]) == Key(before[i].sighting);
      match IndexOf(Sightings(before), items[n].normalized.identityKey)
      case None =>
        NewRowIsAnother(items[..n], before, items[n]);
        NewRowSays(items[..n], before, items[n]);
      case Some(at) =>
        OldRowStays(items[..n], before, items[n], at);
        OldRowSays(items[..n], before, items[n], at);
    }
  }

  lemma OfIdentityOneMore(front: seq<Adapted>, a: Adapted, key: string)
    ensures OfIdentity(front + [a], key) ==
      if a.normalized.identityKey == key then OfIdentity(front, key) + [a] else OfIdentity(front, key)
  {
    assert (front + [a])[..|front|] == front;
  }

  /** A row and what it says carry over to a list in which its identity has the same items. */
  lemma SameItemsSay(row: Row, front: seq<Adapted>, a: Adapted)
    requires SaysOf(row, OfIdentity(front, Key(row.sighting))) && a.normalized.identityKey != Key(row.sighting)
    ensures SaysOf(row, OfIdentity(front + [a], Key(row.sighting)))
  {
    OfIdentityOneMore(front, a, Key(row.sighting));
  }

  lemma FirstItemSays(front: seq<Adapted>, a: Adapted)
    requires forall b :: b in front ==> b.normalized.identityKey != a.normalized.identityKey
    ensures SaysOf(Row(a.draft, SightingOf(a), 0), OfIdentity(front + [a], a.normalized.identityKey))
  {
    OfIdentityOneMore(front, a, a.normalized.identityKey);
    NoneOfIdentity(front, a.normalized.identityKey);
    FirstSaysOf(a);
    assert [] + [a] == [a];
  }

  lemma NextItemSays(row: Row, front: seq<Adapted>, a: Adapted)
    requires SaysOf(row, OfIdentity(front, Key(row.sighting))) && a.normalized.identityKey == Key(row.sighting)
    ensures SaysOf(Repeated(row, a), OfIdentity(front + [a], Key(row.sighting)))
  {
    OfIdentityOneMore(front, a, Key(row.sighting));
    RepeatedSaysOf(row, OfIdentity(front, Key(row.sighting)), a);
  }

  lemma KeysAreRows(rows: seq<Row>, more: seq<Row>, a: Adapted, front: seq<Adapted>)
    requires forall b :: b in front ==> HasRow(rows, b.normalized.identityKey)
    requires |rows| <= |more| && forall i :: 0 <= i < |rows| ==> Key(more[i].sighting) == Key(rows[i].sighting)
    requires HasRow(more, a.normalized.identityKey)
    ensures forall b :: b in front + [a] ==> HasRow(more, b.normalized.identityKey)
  {
    forall b | b in front
      ensures HasRow(more, b.normalized.identityKey)
    {
      var i :| 0 <= i < |rows| && Key(rows[i].sighting) == b.normalized.identityKey;
      assert Key(more[i].sighting) == b.normalized.identityKey;
    }
  }

  lemma NewRowIsAnother(front: seq<Adapted>, before: seq<Row>, a: Adapted)
    requires OneRowEach(before) && forall b :: b in front ==> HasRow(before, b.normalized.identityKey)
    requires forall i :: 0 <= i < |before| ==> Key(before[i].sighting) != a.normalized.identityKey
    ensures var rows := before + [Row(a.draft, SightingOf(a), 0)];
      OneRowEach(rows) && forall b :: b in front + [a] ==> HasRow(rows, b.normalized.identityKey)
  {
    var rows := before + [Row(a.draft, SightingOf(a), 0)];
    assert Key(rows[|before|].sighting) == a.normalized.identityKey;
    KeysAreRows(before, rows, a, front);
  }

  lemma NewRowSays(front: seq<Adapted>, before: seq<Row>, a: Adapted)
    requires RowsSay(before, front)
    requires forall b :: b in front ==> HasRow(before, b.normalized.identityKey)
    requires forall i :: 0 <= i < |before| ==> Key(before[i].sighting) != a.normalized.identityKey
    ensures RowsSay(before + [Row(a.draft, SightingOf(a), 0)], front + [a])
  {
    FirstItemSays(front, a);
    forall i | 0 <= i < |before|
      ensures SaysOf(before[i], OfIdentity(front + [a], Key(before[i].sighting)))
    {
      SameItemsSay(before[i], front, a);
    }
  }

  lemma OldRowStays(front: seq<Adapted>, before: seq<Row>, a: Adapted, at: nat)
    requires OneRowEach(before) && forall b :: b in front ==> HasRow(before, b.normalized.identityKey)
    requires at < |before| && Key(before[at].sighting) == a.normalized.identityKey
    ensures var rows := before[at := Repeated(before[at], a)];
      OneRowEach(rows) && forall b :: b in front + [a] ==> HasRow(rows, b.normalized.identityKey)
  {
    var rows := before[at := Repeated(before[at], a)];
    assert forall i :: 0 <= i < |before| ==> Key(rows[i].sighting) == Key(before[i].sighting);
    assert Key(rows[at].sighting) == a.normalized.identityKey;
    KeysAreRows(before, rows, a, front);
  }

  lemma OldRowSays(front: seq<Adapted>, before: seq<Row>, a: Adapted, at: nat)
    requires RowsSay(before, front) && OneRowEach(before)
    requires at < |before| && Key(before[at].sighting) == a.normalized.identityKey
    ensures RowsSay(before[at := Repeated(before[at], a)], front + [a])
  {
    NextItemSays(before[at], front, a);
    forall i | 0 <= i < |before| && i != at
      ensures SaysOf(before[i], OfIdentity(front + [a], Key(before[i].sighting)))
    {
      SameItemsSay(before[i], front, a);
    }
  }

  lemma {:induction false} NoneOfIdentity(items: seq<Adapted>, key: string)
    requires forall b :: b in items ==> b.normalized.identityKey != key
    ensures OfIdentity(items, key) == []
  {
    if |items| != 0 {
      NoneOfIdentity(items[..|items| - 1], key);
    }
  }
}
