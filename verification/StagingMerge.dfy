/**
 Deduplicating sightings before they are staged leaves the same table as staging them one at a time. The
 statements here are about any table, its rows protected or not.
 */
module StagingMerge {
  import opened Common
  import opened StagingNormalization
  import opened DiscoveryTables

  /** One normalised candidate as a search result showed it. */
  datatype Sighting = Sighting(provider: string, position: Option<nat>, fields: Normalized)

  function Key(x: Sighting): string {
    x.fields.identityKey
  }

  /** Two sightings of one identity as one: the first wins, the second fills gaps and may improve the position. */
  function Merge(first: Sighting, second: Sighting): Sighting {
    Sighting(first.provider, BestPosition(first.position, second.position),
             FillMissingFields(first.fields, second.fields))
  }

  function IndexOf(rows: seq<Sighting>, key: string): (at: Option<nat>)
    ensures at.Some? ==> at.value < |rows| && Key(rows[at.value]) == key
    ensures at.None? ==> forall i :: 0 <= i < |rows| ==> Key(rows[i]) != key
  {
    if |rows| == 0 then None
    else if Key(rows[|rows| - 1]) == key then Some(|rows| - 1)
    else IndexOf(rows[..|rows| - 1], key)
  }

  function Put(rows: seq<Sighting>, x: Sighting): seq<Sighting> {
    match IndexOf(rows, Key(x))
    case None => rows + [x]
    case Some(i) => rows[i := Merge(rows[i], x)]
  }

  /** The in-memory deduplication: one entry per identity key, in order of first appearance. */
  function Compact(xs: seq<Sighting>): seq<Sighting> {
    if |xs| == 0 then [] else Put(Compact(xs[..|xs| - 1]), xs[|xs| - 1])
  }

  function StageOne(s: Store, projectId: nat, runId: nat, x: Sighting): Store {
    Stage(s, projectId, runId, x.provider, x.position, x.fields)
  }

  /** The repository fed one sighting after the other. */
  function StageAll(s: Store, projectId: nat, runId: nat, xs: seq<Sighting>): Store {
    if |xs| == 0 then s
    else StageOne(StageAll(s, projectId, runId, xs[..|xs| - 1]), projectId, runId, xs[|xs| - 1])
  }

  ghost predicate DistinctKeys(rows: seq<Sighting>) {
    forall i, j :: 0 <= i < j < |rows| ==> Key(rows[i]) != Key(rows[j])
  }

  ghost predicate IdsBounded(s: Store) {
    forall id :: id in s.candidates ==> id < s.nextCandidate
  }

  ghost predicate Present(s: Store, projectId: nat, key: string) {
    exists id :: id in s.candidates && HasKey(s.candidates[id], projectId, key)
  }

  function Lookup(s: Store, projectId: nat, key: string): Option<nat> {
    FindByKey(s.candidates, s.nextCandidate, projectId, key)
  }

  lemma LookupIsLowest(s: Store, projectId: nat, key: string, id: nat)
    requires IdsBounded(s) && id in s.candidates && HasKey(s.candidates[id], projectId, key)
    requires forall other :: other in s.candidates && other < id ==> !HasKey(s.candidates[other], projectId, key)
    ensures Lookup(s, projectId, key) == Some(id)
  {
  }

  /** Staging leaves every other identity where it was, and its own in the row it was or is put in. */
  lemma LookupAfterStage(s: Store, projectId: nat, runId: nat, x: Sighting, key: string)
    requires IdsBounded(s)
    ensures var after := StageOne(s, projectId, runId, x);
      && IdsBounded(after)
      && (key != Key(x) ==> Lookup(after, projectId, key) == Lookup(s, projectId, key))
      && Lookup(after, projectId, Key(x)) ==
         (if Lookup(s, projectId, Key(x)).Some? then Lookup(s, projectId, Key(x)) else Some(s.nextCandidate))
  {
    var after := StageOne(s, projectId, runId, x);
    var mine := if Lookup(s, projectId, Key(x)).Some? then Lookup(s, projectId, Key(x)).value else s.nextCandidate;
    LookupIsLowest(after, projectId, Key(x), mine);
    if key != Key(x) {
      match Lookup(s, projectId, key)
      case Some(id) => LookupIsLowest(after, projectId, key, id);
      case None =>
    }
  }

  /** Two sightings of one identity: staging both is staging their merge. */
  lemma StageMerges(s: Store, projectId: nat, runId: nat, a: Sighting, b: Sighting)
    requires IdsBounded(s) && Key(a) == Key(b)
    ensures StageOne(StageOne(s, projectId, runId, a), projectId, runId, b) ==
            StageOne(s, projectId, runId, Merge(a, b))
  {
    LookupAfterStage(s, projectId, runId, a, Key(b));
    var twice := StageOne(StageOne(s, projectId, runId, a), projectId, runId, b);
    var once := StageOne(s, projectId, runId, Merge(a, b));
    assert twice.candidates == once.candidates;
  }

  /** Sightings of different identities commute once the first has a row, so that it needs no new id. */
  lemma StagesCommute(s: Store, projectId: nat, runId: nat, a: Sighting, b: Sighting)
    requires IdsBounded(s) && Key(a) != Key(b) && Present(s, projectId, Key(a))
    ensures StageOne(StageOne(s, projectId, runId, a), projectId, runId, b) ==
            StageOne(StageOne(s, projectId, runId, b), projectId, runId, a)
  {
    LookupAfterStage(s, projectId, runId, a, Key(b));
    LookupAfterStage(s, projectId, runId, b, Key(a));
    var ab := StageOne(StageOne(s, projectId, runId, a), projectId, runId, b);
    var ba := StageOne(StageOne(s, projectId, runId, b), projectId, runId, a);
    assert Lookup(s, projectId, Key(a)).Some?;
    assert ab.candidates == ba.candidates;
  }

  lemma {:induction false} StagedArePresent(s: Store, projectId: nat, runId: nat, xs: seq<Sighting>)
    requires IdsBounded(s)
    ensures IdsBounded(StageAll(s, projectId, runId, xs))
    ensures forall i :: 0 <= i < |xs| ==> Lookup(StageAll(s, projectId, runId, xs), projectId, Key(xs[i])).Some?
  {
    if |xs| != 0 {
      var before := xs[..|xs| - 1];
      StagedArePresent(s, projectId, runId, before);
      forall i | 0 <= i < |xs|
        ensures Lookup(StageAll(s, projectId, runId, xs), projectId, Key(xs[i])).Some?
      {
        LookupAfterStage(StageAll(s, projectId, runId, before), projectId, runId, xs[|xs| - 1], Key(xs[i]));
        assert i < |before| ==> before[i] == xs[i];
      }
    }
  }

  lemma {:induction false} StagePut(s: Store, projectId: nat, runId: nat, rows: seq<Sighting>, x: Sighting)
    requires IdsBounded(s) && DistinctKeys(rows)
    ensures StageAll(s, projectId, runId, Put(rows, x)) ==
            StageOne(StageAll(s, projectId, runId, rows), projectId, runId, x)
  {
    var put := Put(rows, x);
    match IndexOf(rows, Key(x))
    case None =>
      assert put[..|put| - 1] == rows;
    case Some(i) =>
      var n := |rows| - 1;
      var front, last := rows[..n], rows[n];
      StagedArePresent(s, projectId, runId, front);
      var staged := StageAll(s, projectId, runId, front);
      if i == n {
        assert put[..n] == front;
        StageMerges(staged, projectId, runId, last, x);
      } else {
        StagePut(s, projectId, runId, front, x);
        assert IndexOf(front, Key(x)) == Some(i);
        assert put[..n] == Put(front, x);
        assert front[i] == rows[i];
        StagesCommute(staged, projectId, runId, x, last);
      }
  }

  lemma PutKeepsKeysDistinct(rows: seq<Sighting>, x: Sighting)
    requires DistinctKeys(rows)
    ensures DistinctKeys(Put(rows, x))
    ensures |Put(rows, x)| == |rows| + if IndexOf(rows, Key(x)).None? then 1 else 0
    ensures forall i :: 0 <= i < |rows| ==> Key(Put(rows, x)[i]) == Key(rows[i])
  {
  }

  lemma {:induction false} CompactHasDistinctKeys(xs: seq<Sighting>)
    ensures DistinctKeys(Compact(xs))
  {
    if |xs| != 0 {
      CompactHasDistinctKeys(xs[..|xs| - 1]);
      PutKeepsKeysDistinct(Compact(xs[..|xs| - 1]), xs[|xs| - 1]);
    }
  }

  /** Staging the deduplicated sightings leaves exactly the table that staging all of them leaves. */
  lemma {:induction false} CompactStagesTheSame(s: Store, projectId: nat, runId: nat, xs: seq<Sighting>)
    requires IdsBounded(s)
    ensures StageAll(s, projectId, runId, Compact(xs)) == StageAll(s, projectId, runId, xs)
  {
    if |xs| != 0 {
      var before := xs[..|xs| - 1];
      CompactStagesTheSame(s, projectId, runId, before);
      CompactHasDistinctKeys(before);
      StagePut(s, projectId, runId, Compact(before), xs[|xs| - 1]);
    }
  }
}
