/** What a selection shows, told by the stored rows: their order, what is left out, and the values shown. */
module SelectionOrder {
  import opened Common
  import opened Text
  import opened DiscoveryTables
  import opened StagingMerge
  import opened CandidateOrder
  import opened CompanySelection

  // ----- Code-point order ---------------------------------------------------------------------------------

  /** At the first place where two texts differ, the one that has ended or has the lower code point is less. */
  ghost predicate LessText(a: string, b: string) {
    exists i: nat :: DiffersFirstAt(a, b, i) && (i == |a| || a[i] < b[i])
  }

  predicate DiffersFirstAt(a: string, b: string, i: nat) {
    i <= |a| && i < |b| && a[..i] == b[..i] && (i < |a| ==> a[i] != b[i])
  }

  lemma {:induction false} TextBeforeExactlyWhenLess(a: string, b: string)
    ensures TextBefore(a, b) <==> LessText(a, b)
  {
    if |b| == 0 {
    } else if |a| == 0 {
      assert DiffersFirstAt(a, b, 0);
    } else if a[0] != b[0] {
      assert DiffersFirstAt(a, b, 0);
      forall i | 0 < i <= |a| && i <= |b|
        ensures a[..i] != b[..i]
      {
        assert a[..i][0] == a[0] && b[..i][0] == b[0];
      }
    } else {
      TextBeforeExactlyWhenLess(a[1..], b[1..]);
      LessBehindTheFirst(a, b);
    }
  }

  lemma LessBehindTheFirst(a: string, b: string)
    requires |a| > 0 && |b| > 0 && a[0] == b[0]
    ensures LessText(a, b) <==> LessText(a[1..], b[1..])
  {
    if LessText(a, b) {
      var i: nat :| DiffersFirstAt(a, b, i) && (i == |a| || a[i] < b[i]);
      assert i > 0;
      assert a[1..][..i - 1] == a[..i][1..] && b[1..][..i - 1] == b[..i][1..];
      assert DiffersFirstAt(a[1..], b[1..], i - 1);
    }
    if LessText(a[1..], b[1..]) {
      var i: nat :| DiffersFirstAt(a[1..], b[1..], i) && (i == |a[1..]| || a[1..][i] < b[1..][i]);
      assert a[..i + 1] == [a[0]] + a[1..][..i] && b[..i + 1] == [b[0]] + b[1..][..i];
      assert DiffersFirstAt(a, b, i + 1);
    }
  }

  // ----- The order of the rows ------------------------------------------------------------------------------

  /**
   One stored row comes before another: a row with a position before one without, then the lower position, then the
   lesser identity key, then the lower id.
   */
  ghost predicate Precedes(s: Store, a: nat, b: nat) {
    && a in s.candidates && b in s.candidates
    && var x, y := s.candidates[a], s.candidates[b];
    && (y.bestPosition.Some? ==> x.bestPosition.Some? && x.bestPosition.value <= y.bestPosition.value)
    && (x.bestPosition == y.bestPosition ==>
        && (x.fields.identityKey == y.fields.identityKey || LessText(x.fields.identityKey, y.fields.identityKey))
        && (x.fields.identityKey == y.fields.identityKey ==> a < b))
  }

  lemma BeforePrecedes(s: Store, a: Listed, b: Listed)
    requires a.id in s.candidates && b.id in s.candidates && a.row == s.candidates[a.id] && b.row == s.candidates[b.id]
    requires Before(a, b)
    ensures Precedes(s, a.id, b.id)
  {
    TextBeforeExactlyWhenLess(a.row.fields.identityKey, b.row.fields.identityKey);
  }

  /** A row the selection is about. */
  predicate IsEligible(s: Store, projectId: nat, runId: nat, includePromoted: bool, id: nat) {
    && id in s.candidates && s.candidates[id].projectId == projectId && s.candidates[id].lastSeenRun == runId
    && (s.candidates[id].status == Discovered || (includePromoted && s.candidates[id].status == Promoted))
  }

  lemma EligibleInOrder(s: Store, projectId: nat, runId: nat, includePromoted: bool)
    ensures InOrder(Eligible(s, projectId, runId, includePromoted))
  {
    var rows := RowsOfRun(s.candidates, s.nextCandidate, projectId, runId, EligibleStatuses(includePromoted));
    RowsOfRunMembers(s.candidates, s.nextCandidate, projectId, runId, EligibleStatuses(includePromoted));
    SortedIsInOrder([], rows);
  }

  lemma EligibleAreTheEligible(s: Store, projectId: nat, runId: nat, includePromoted: bool, x: Listed)
    requires IdsBounded(s)
    ensures x in Eligible(s, projectId, runId, includePromoted) <==>
      IsEligible(s, projectId, runId, includePromoted, x.id) && x.row == s.candidates[x.id]
  {
    EligibleMembers(s, projectId, runId, includePromoted);
  }

  /** A name within 200 characters is shown whole, a longer one by its beginning with an ellipsis behind it. */
  predicate IsShownName(shown: string, name: string) {
    if |name| <= 200 then shown == name
    else 3 < |shown| <= 200 && shown[|shown| - 3..] == "..." && shown[..|shown| - 3] <= name
  }

  /** What is shown of a row under an index: its own values, a long name cut, and the evidence of its identity. */
  predicate ShowsRow(shown: Shown, index: nat, row: Candidate, evidence: map<string, Evidence>) {
    && shown.index == index && shown.website == row.fields.website && shown.country == row.fields.countryCode
    && row.fields.name.Some?
    && (IsNormal(row.fields.name.value) ==> IsShownName(shown.name, row.fields.name.value))
    && shown.evidence == (if row.fields.identityKey in evidence then evidence[row.fields.identityKey]
                          else Evidence(None, None, None, None))
  }

  predicate Binds(x: SelectionInput, id: nat) {
    exists i :: 0 <= i < |x.bindings| && x.bindings[i].candidateId == id
  }

  /** The row comes behind every one the selection binds. */
  ghost predicate BehindAll(s: Store, x: SelectionInput, id: nat) {
    forall i :: 0 <= i < |x.bindings| ==> Precedes(s, x.bindings[i].candidateId, id)
  }

  /** Under each index a row that is eligible, with its own values. */
  predicate ShowsEligible(s: Store, projectId: nat, runId: nat, includePromoted: bool, evidence: map<string, Evidence>,
                          x: SelectionInput)
  {
    && |x.request.candidates| == |x.bindings|
    && forall i :: 0 <= i < |x.bindings| ==>
       && x.bindings[i].index == i + 1
       && IsEligible(s, projectId, runId, includePromoted, x.bindings[i].candidateId)
       && ShowsRow(x.request.candidates[i], i + 1, s.candidates[x.bindings[i].candidateId], evidence)
  }

  ghost predicate BindsInOrder(s: Store, x: SelectionInput) {
    forall i, j :: 0 <= i < j < |x.bindings| ==> Precedes(s, x.bindings[i].candidateId, x.bindings[j].candidateId)
  }

  /** The bindings are those of some rows. */
  predicate BindsRows(x: SelectionInput, rows: seq<Listed>) {
    |x.bindings| == |rows| && forall i :: 0 <= i < |rows| ==> x.bindings[i] == Binding(i + 1, rows[i].id)
  }

  predicate AreStored(s: Store, rows: seq<Listed>) {
    forall i :: 0 <= i < |rows| ==> rows[i].id in s.candidates && rows[i].row == s.candidates[rows[i].id]
  }

  lemma RowsInOrder(s: Store, x: SelectionInput, rows: seq<Listed>)
    requires BindsRows(x, rows) && AreStored(s, rows) && InOrder(rows)
    ensures BindsInOrder(s, x)
  {
    forall i, j | 0 <= i < j < |rows|
      ensures Precedes(s, rows[i].id, rows[j].id)
    {
      BeforePrecedes(s, rows[i], rows[j]);
    }
  }

  lemma RowsBehind(s: Store, x: SelectionInput, rows: seq<Listed>, id: nat)
    requires BindsRows(x, rows) && AreStored(s, rows) && id in s.candidates
    requires forall i :: 0 <= i < |rows| ==> Before(rows[i], Listed(id, s.candidates[id]))
    ensures BehindAll(s, x, id)
  {
    forall i | 0 <= i < |rows|
      ensures Precedes(s, rows[i].id, id)
    {
      BeforePrecedes(s, rows[i], Listed(id, s.candidates[id]));
    }
  }

  lemma ShownValues(x: Listed, index: nat, evidence: map<string, Evidence>)
    requires x.row.fields.name.Some?
    ensures ShowsRow(ShowRow(x, index, evidence), index, x.row, evidence)
  {
    if IsNormal(x.row.fields.name.value) {
      NormalIsFixed(x.row.fields.name.value);
      NameIsShown(x.row.fields.name.value);
    }
  }

  lemma NameIsShown(name: string)
    requires IsNormal(name)
    ensures IsShownName(if |name| > 200 then RStrip(name[..197]) + "..." else name, name)
  {
    if |name| > 200 {
      TruncationStaysNormal(name, 197);
      RStripShape(name[..197]);
    }
  }

  lemma TopIsEligible(s: Store, projectId: nat, runId: nat, includePromoted: bool, k: nat)
    requires IdsBounded(s)
    ensures var top := Take(k, Eligible(s, projectId, runId, includePromoted));
      forall i :: 0 <= i < |top| ==>
        IsEligible(s, projectId, runId, includePromoted, top[i].id) && top[i].row == s.candidates[top[i].id]
  {
    var all := Eligible(s, projectId, runId, includePromoted);
    forall i | 0 <= i < |Take(k, all)|
      ensures IsEligible(s, projectId, runId, includePromoted, all[i].id) && all[i].row == s.candidates[all[i].id]
    {
      assert all[i] in all;
      EligibleAreTheEligible(s, projectId, runId, includePromoted, all[i]);
    }
  }

  lemma LeftOutIsBehind(s: Store, projectId: nat, runId: nat, includePromoted: bool, k: nat, id: nat)
    requires IdsBounded(s) && IsEligible(s, projectId, runId, includePromoted, id)
    requires forall i :: 0 <= i < |Take(k, Eligible(s, projectId, runId, includePromoted))| ==>
      Take(k, Eligible(s, projectId, runId, includePromoted))[i].id != id
    ensures var top := Take(k, Eligible(s, projectId, runId, includePromoted));
      |top| == k && forall i :: 0 <= i < k ==> Before(top[i], Listed(id, s.candidates[id]))
  {
    var all := Eligible(s, projectId, runId, includePromoted);
    EligibleInOrder(s, projectId, runId, includePromoted);
    EligibleAreTheEligible(s, projectId, runId, includePromoted, Listed(id, s.candidates[id]));
    var at :| 0 <= at < |all| && all[at] == Listed(id, s.candidates[id]);
    forall i | 0 <= i < |Take(k, all)|
      ensures Take(k, all)[i] == all[i] && i != at
    {
    }
  }

  /**
   A selection binds eligible rows in the order above and shows their values; a row it leaves out comes behind every
   one it binds, and it leaves one out only when it binds k.
   */
  lemma SelectionIsInOrder(s: Store, size: Request -> nat, projectId: nat, runId: nat, goal: string, k: nat,
                           includePromoted: bool, evidence: map<string, Evidence>, x: SelectionInput)
    requires IdsBounded(s)
    requires PrepareSelection(s, size, projectId, runId, goal, k, includePromoted, evidence) == Ok(x)
    ensures 1 <= |x.bindings| <= k && x.request.goal == goal
    ensures ShowsEligible(s, projectId, runId, includePromoted, evidence, x) && BindsInOrder(s, x)
    ensures forall id :: IsEligible(s, projectId, runId, includePromoted, id) && !Binds(x, id) ==>
      |x.bindings| == k && BehindAll(s, x, id)
  {
    var top := Take(k, Eligible(s, projectId, runId, includePromoted));
    SelectionShowsTopK(s, size, projectId, runId, goal, k, includePromoted, evidence, x);
    TopIsEligible(s, projectId, runId, includePromoted, k);
    GoalIsKept(s, size, projectId, runId, goal, k, includePromoted, evidence, x);
    forall i | 0 <= i < |top|
      ensures ShowsRow(x.request.candidates[i], i + 1, top[i].row, evidence)
    {
      ShownValues(top[i], i + 1, evidence);
    }
    TopInOrder(s, projectId, runId, includePromoted, k);
    RowsInOrder(s, x, top);
    forall id | IsEligible(s, projectId, runId, includePromoted, id) && !Binds(x, id)
      ensures |x.bindings| == k && BehindAll(s, x, id)
    {
      UnboundIsBehind(s, projectId, runId, includePromoted, k, x, id);
    }
  }

  lemma TopInOrder(s: Store, projectId: nat, runId: nat, includePromoted: bool, k: nat)
    ensures InOrder(Take(k, Eligible(s, projectId, runId, includePromoted)))
  {
    EligibleInOrder(s, projectId, runId, includePromoted);
  }

  lemma UnboundIsBehind(s: Store, projectId: nat, runId: nat, includePromoted: bool, k: nat, x: SelectionInput, id: nat)
    requires IdsBounded(s) && IsEligible(s, projectId, runId, includePromoted, id) && !Binds(x, id)
    requires BindsRows(x, Take(k, Eligible(s, projectId, runId, includePromoted)))
    ensures |x.bindings| == k && BehindAll(s, x, id)
  {
    var top := Take(k, Eligible(s, projectId, runId, includePromoted));
    forall i | 0 <= i < |top|
      ensures top[i].id != id
    {
      assert x.bindings[i].candidateId == top[i].id;
    }
    LeftOutIsBehind(s, projectId, runId, includePromoted, k, id);
    TopIsEligible(s, projectId, runId, includePromoted, k);
    RowsBehind(s, x, top, id);
  }

  lemma GoalIsKept(s: Store, size: Request -> nat, projectId: nat, runId: nat, goal: string, k: nat,
                   includePromoted: bool, evidence: map<string, Evidence>, x: SelectionInput)
    requires PrepareSelection(s, size, projectId, runId, goal, k, includePromoted, evidence) == Ok(x)
    ensures x.request.goal == goal
  {
  }
}
