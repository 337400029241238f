/** Choosing the candidates of a run that are shown to the decision, and resolving its answer. */
module CompanySelection {
  import opened Common
  import opened Text
  import opened DiscoveryTables
  import opened CandidateOrder
  import opened CandidateLifecycle

  // ----- list_candidates_for_run ----------------------------------------------------------------------

  predicate OfRun(row: Candidate, projectId: nat, runId: nat, statuses: set<CandidateStatus>) {
    row.projectId == projectId && row.lastSeenRun == runId && row.status in statuses
  }

  /** The rows of a run with one of the statuses, by id. */
  function RowsOfRun(rows: map<nat, Candidate>, bound: nat, projectId: nat, runId: nat, statuses: set<CandidateStatus>):
    seq<Listed>
  {
    if bound == 0 then []
    else
      RowsOfRun(rows, bound - 1, projectId, runId, statuses)
      + if bound - 1 in rows && OfRun(rows[bound - 1], projectId, runId, statuses)
        then [Listed(bound - 1, rows[bound - 1])] else []
  }

  /** One query: the rows of a run with one status, in the listing order, cut at the limit. */
  function ListForRun(s: Store, projectId: nat, runId: nat, limit: nat, status: CandidateStatus): seq<Listed> {
    Take(limit, Sorted(RowsOfRun(s.candidates, s.nextCandidate, projectId, runId, {status})))
  }

  lemma {:induction false} RowsOfRunMembers(rows: map<nat, Candidate>, bound: nat, projectId: nat, runId: nat,
                                            statuses: set<CandidateStatus>)
    ensures var found := RowsOfRun(rows, bound, projectId, runId, statuses);
      && (forall x :: x in found <==>
          x.id < bound && x.id in rows && x.row == rows[x.id] && OfRun(x.row, projectId, runId, statuses))
      && (forall i, j :: 0 <= i < j < |found| ==> found[i].id < found[j].id)
  {
    if bound != 0 {
      RowsOfRunMembers(rows, bound - 1, projectId, runId, statuses);
      var earlier := RowsOfRun(rows, bound - 1, projectId, runId, statuses);
      assert forall i :: 0 <= i < |earlier| ==> earlier[i] in earlier;
    }
  }

  lemma AddedLast(xs: seq<Listed>, ys: seq<Listed>, x: Listed, both: seq<Listed>)
    requires Sorted(both) == Sorted(xs + ys) && OneRowPerId(ys + [x])
    ensures Sorted(both + [x]) == Sorted((xs + [x]) + ys)
    ensures Sorted(both + [x]) == Sorted(xs + (ys + [x]))
  {
    InsertAllConcat([], both, [x]);
    InsertAllConcat([], xs + ys, [x]);
    assert (xs + ys) + [x] == xs + (ys + [x]);
    InsertAllConcat([], xs, ys + [x]);
    GroupsCommute(Sorted(xs), ys, [x]);
    InsertAllConcat([], xs, [x] + ys);
    assert xs + ([x] + ys) == (xs + [x]) + ys;
  }

  lemma {:induction false} StatusesSplit(rows: map<nat, Candidate>, bound: nat, projectId: nat, runId: nat,
                                         a: CandidateStatus, b: CandidateStatus)
    requires a != b
    ensures Sorted(RowsOfRun(rows, bound, projectId, runId, {a, b})) ==
            Sorted(RowsOfRun(rows, bound, projectId, runId, {a}) + RowsOfRun(rows, bound, projectId, runId, {b}))
  {
    if bound != 0 {
      StatusesSplit(rows, bound - 1, projectId, runId, a, b);
      var both := RowsOfRun(rows, bound - 1, projectId, runId, {a, b});
      var xs := RowsOfRun(rows, bound - 1, projectId, runId, {a});
      var ys := RowsOfRun(rows, bound - 1, projectId, runId, {b});
      RowsOfOneMore(rows, bound - 1, projectId, runId, {a, b});
      RowsOfOneMore(rows, bound - 1, projectId, runId, {a});
      RowsOfOneMore(rows, bound - 1, projectId, runId, {b});
      if bound - 1 in rows && OfRun(rows[bound - 1], projectId, runId, {a, b}) {
        NextRowIsAnother(rows, bound - 1, projectId, runId, {b});
        AddedLast(xs, ys, Listed(bound - 1, rows[bound - 1]), both);
      }
    }
  }

  lemma NextRowIsAnother(rows: map<nat, Candidate>, id: nat, projectId: nat, runId: nat, statuses: set<CandidateStatus>)
    requires id in rows
    ensures OneRowPerId(RowsOfRun(rows, id, projectId, runId, statuses) + [Listed(id, rows[id])])
  {
    RowsOfRunMembers(rows, id, projectId, runId, statuses);
  }

  lemma RowsOfOneMore(rows: map<nat, Candidate>, id: nat, projectId: nat, runId: nat, statuses: set<CandidateStatus>)
    ensures RowsOfRun(rows, id + 1, projectId, runId, statuses) ==
      if id in rows && OfRun(rows[id], projectId, runId, statuses)
      then RowsOfRun(rows, id, projectId, runId, statuses) + [Listed(id, rows[id])]
      else RowsOfRun(rows, id, projectId, runId, statuses)
  {
  }

  lemma PrefixIsFixed(k: nat, xs: seq<Listed>)
    requires InOrder(xs) && DistinctIds(xs)
    ensures Sorted(Take(k, xs)) == Take(k, xs)
  {
    var front := Take(k, xs);
    forall i, j | 0 <= i < j < |front|
      ensures Before(front[i], front[j]) && front[i].id != front[j].id
    {
      assert front[i] == xs[i] && front[j] == xs[j];
    }
    assert [] + front == front;
    InOrderIsFixed([], front);
  }

  ghost predicate DistinctIds(xs: seq<Listed>) {
    forall i, j :: 0 <= i < j < |xs| ==> xs[i].id != xs[j].id
  }

  lemma {:induction false} InsertKeepsIds(xs: seq<Listed>, x: Listed)
    requires DistinctIds(xs) && forall y :: y in xs ==> y.id != x.id
    ensures DistinctIds(Insert(xs, x))
  {
    if |xs| != 0 && !Before(x, xs[0]) {
      InsertKeepsIds(xs[1..], x);
      InsertMembers(xs[1..], x);
      var rest := Insert(xs[1..], x);
      assert forall j :: 0 <= j < |rest| ==> rest[j] in rest;
      assert xs[0] in xs;
    }
  }

  lemma {:induction false} InsertAllKeepsIds(sorted: seq<Listed>, xs: seq<Listed>)
    requires DistinctIds(sorted) && DistinctIds(xs) && forall x, y :: x in sorted && y in xs ==> x.id != y.id
    ensures DistinctIds(InsertAll(sorted, xs))
    decreases |xs|
  {
    if |xs| != 0 {
      InsertKeepsIds(sorted, xs[0]);
      InsertMembers(sorted, xs[0]);
      InsertAllKeepsIds(Insert(sorted, xs[0]), xs[1..]);
    }
  }

  /** The first k of two lists, each sorted and cut at k, are the first k of everything. */
  lemma TopOfBoth(k: nat, xs: seq<Listed>, ys: seq<Listed>)
    requires DistinctIds(xs + ys)
    ensures Take(k, Sorted(Take(k, Sorted(xs)) + Take(k, Sorted(ys)))) == Take(k, Sorted(xs + ys))
  {
    var a, b := Sorted(xs), Sorted(ys);
    HalvesAreSorted(xs, ys);
    var ta, tb := Take(k, a), Take(k, b);
    InsertAllMembers([], xs);
    InsertAllMembers([], ys);
    PrefixIsFixed(k, a);
    PrefixIsFixed(k, b);
    InsertAllConcat([], ta, tb);
    InsertAllConcat([], tb, a);
    TakeOfInsertAll(k, a, tb);
    TakeOfInsertAll(k, b, a);
    PairOnce(xs, ys);
    assert OneRowPerId(a + tb) by {
      assert forall x :: x in a + tb ==> x in xs + ys;
    }
    GroupsCommute([], a, tb);
    InsertAllConcat([], a, tb);
    SortedAgain(xs);
    assert OneRowPerId([] + xs) by {
      assert forall x :: x in [] + xs ==> x in xs + ys;
    }
    InsertAllOfSorted(b, [], xs);
    assert [] + xs == xs;
    InsertAllConcat([], ys, xs);
    GroupsCommute([], xs, ys);
  }

  lemma PairOnce(xs: seq<Listed>, ys: seq<Listed>)
    requires DistinctIds(xs + ys)
    ensures OneRowPerId(xs + ys)
  {
  }

  lemma SortedAgain(xs: seq<Listed>)
    requires DistinctIds(xs)
    ensures Sorted(Sorted(xs)) == Sorted(xs)
  {
    SortedIsInOrder([], xs);
    InsertAllKeepsIds([], xs);
    assert [] + Sorted(xs) == Sorted(xs);
    InOrderIsFixed([], Sorted(xs));
  }

  lemma HalvesAreSorted(xs: seq<Listed>, ys: seq<Listed>)
    requires DistinctIds(xs + ys)
    ensures DistinctIds(xs) && DistinctIds(ys)
    ensures InOrder(Sorted(xs)) && InOrder(Sorted(ys)) && DistinctIds(Sorted(xs)) && DistinctIds(Sorted(ys))
  {
    assert forall i :: 0 <= i < |xs| ==> (xs + ys)[i] == xs[i];
    assert forall i :: 0 <= i < |ys| ==> (xs + ys)[|xs| + i] == ys[i];
    SortedIsInOrder([], xs);
    SortedIsInOrder([], ys);
    InsertAllKeepsIds([], xs);
    InsertAllKeepsIds([], ys);
  }

  /**
   Fetching the first k DISCOVERED and the first k PROMOTED rows of a run, merging, sorting and cutting gives
   the first k of all its eligible rows.
   */
  lemma TwoQueriesGiveTheTopK(s: Store, projectId: nat, runId: nat, k: nat)
    ensures Take(k, Sorted(ListForRun(s, projectId, runId, k, Discovered)
                           + ListForRun(s, projectId, runId, k, Promoted)))
         == Take(k, Sorted(RowsOfRun(s.candidates, s.nextCandidate, projectId, runId, {Discovered, Promoted})))
  {
    var xs := RowsOfRun(s.candidates, s.nextCandidate, projectId, runId, {Discovered});
    var ys := RowsOfRun(s.candidates, s.nextCandidate, projectId, runId, {Promoted});
    RowsOfRunMembers(s.candidates, s.nextCandidate, projectId, runId, {Discovered});
    RowsOfRunMembers(s.candidates, s.nextCandidate, projectId, runId, {Promoted});
    var all := xs + ys;
    forall i, j | 0 <= i < j < |all|
      ensures all[i].id != all[j].id
    {
      if j < |xs| {
      } else if i < |xs| {
        assert xs[i] in xs && ys[j - |xs|] in ys;
      }
    }
    TopOfBoth(k, xs, ys);
    StatusesSplit(s.candidates, s.nextCandidate, projectId, runId, Discovered, Promoted);
  }

  // ----- What is shown ------------------------------------------------------------------------------------

  datatype Evidence = Evidence(
    city: Option<string>, industry: Option<string>, snippet: Option<string>, websiteSummary: Option<string>)

  datatype Shown = Shown(index: nat, name: string, website: Option<string>, country: Option<string>, evidence: Evidence)

  datatype Request = Request(goal: string, candidates: seq<Shown>)

  datatype Binding = Binding(index: nat, candidateId: nat)

  datatype SelectionInput = SelectionInput(projectId: nat, runId: nat, request: Request, bindings: seq<Binding>)

  datatype SelectionError = InvalidInput | RunNotFound | RunNotReady | NoCandidates | Inconsistent

  const NO_EVIDENCE := Evidence(None, None, None, None)

  const MAX_REQUEST_BYTES := 20000

  /** A name cut to 200 characters, an ellipsis marking the cut. */
  function ShownName(value: string): string {
    var normalized := Collapse(value);
    if |normalized| > 200 then RStrip(normalized[..197]) + "..." else normalized
  }

  predicate WithinBound(value: Option<string>, maximum: nat) {
    value.Some? ==> Strip(value.value) != "" && |value.value| <= maximum
  }

  predicate ValidShown(c: Shown) {
    && 1 <= c.index <= 5
    && WithinBound(Some(c.name), 200) && WithinBound(c.website, 2048) && WithinBound(c.country, 100)
    && ValidEvidence(c.evidence)
  }

  predicate ValidEvidence(e: Evidence) {
    && WithinBound(e.city, 100) && WithinBound(e.industry, 150)
    && WithinBound(e.snippet, 1200) && WithinBound(e.websiteSummary, 2000)
  }

  predicate ValidGoal(goal: string) {
    Strip(goal) != "" && |goal| <= 1000
  }

  predicate ValidRequest(r: Request) {
    && ValidGoal(r.goal) && 1 <= |r.candidates| <= 5
    && forall i :: 0 <= i < |r.candidates| ==> ValidShown(r.candidates[i]) && r.candidates[i].index == i + 1
  }

  /** The alignment the selection input demands: shown candidates and bindings carry 1..n, ids are distinct. */
  predicate ValidSelection(x: SelectionInput) {
    && ValidRequest(x.request) && |x.bindings| == |x.request.candidates|
    && (forall i :: 0 <= i < |x.bindings| ==> x.bindings[i].index == i + 1 && x.bindings[i].candidateId > 0)
    && (forall i, j :: 0 <= i < j < |x.bindings| ==> x.bindings[i].candidateId != x.bindings[j].candidateId)
  }

  function EvidenceOf(x: Listed, evidence: map<string, Evidence>): Evidence {
    if x.row.fields.identityKey in evidence then evidence[x.row.fields.identityKey] else NO_EVIDENCE
  }

  /** A row as the decision sees it; a nameless one would be shown blank, which no request accepts. */
  function ShowRow(x: Listed, index: nat, evidence: map<string, Evidence>): Shown {
    var n := x.row.fields;
    Shown(index, ShownName(if n.name.Some? then n.name.value else ""), n.website, n.countryCode,
          EvidenceOf(x, evidence))
  }

  function RequestOf(goal: string, ordered: seq<Listed>, evidence: map<string, Evidence>): Request {
    Request(goal, seq(|ordered|, i requires 0 <= i < |ordered| => ShowRow(ordered[i], i + 1, evidence)))
  }

  function BindingsOf(ordered: seq<Listed>): seq<Binding> {
    seq(|ordered|, i requires 0 <= i < |ordered| => Binding(i + 1, ordered[i].id))
  }

  // ----- Validating what was fetched ------------------------------------------------------------------------

  predicate UpperPair(code: string) {
    |code| == 2 && 'A' <= code[0] <= 'Z' && 'A' <= code[1] <= 'Z'
  }

  /** The values of a row that may be shown: in particular it has a name. */
  predicate Describable(row: Candidate) {
    && row.fields.name.Some? && Strip(row.fields.name.value) != ""
    && '\0' !in row.fields.name.value && !HasMarkup(row.fields.name.value)
    && (row.fields.countryCode.Some? ==> UpperPair(row.fields.countryCode.value))
    && Strip(row.fields.identityKey) != "" && '\0' !in row.fields.identityKey
    && row.bestPosition != Some(0)
  }

  predicate ValidCandidate(x: Listed, projectId: nat, runId: nat, includePromoted: bool) {
    && x.id > 0 && projectId > 0 && x.row.projectId == projectId && runId > 0 && x.row.lastSeenRun == runId
    && (if x.row.status == Discovered then x.row.promotedCompany.None?
        else
          && includePromoted && x.row.status == Promoted
          && x.row.promotedCompany.Some? && x.row.promotedCompany.value > 0)
    && Describable(x.row)
  }

  ghost predicate ValidBatch(xs: seq<Listed>, projectId: nat, runId: nat, maximum: nat, includePromoted: bool) {
    && |xs| <= maximum
    && (forall x :: x in xs ==> ValidCandidate(x, projectId, runId, includePromoted))
    && (forall i, j :: 0 <= i < j < |xs| ==>
        xs[i].id != xs[j].id && xs[i].row.fields.identityKey != xs[j].row.fields.identityKey)
  }

  /** Walks the fetched rows, refusing an invalid one and an id or identity key seen before. */
  method ValidateCandidates(xs: seq<Listed>, projectId: nat, runId: nat, maximum: nat, includePromoted: bool)
    returns (ok: bool)
    ensures ok <==> ValidBatch(xs, projectId, runId, maximum, includePromoted)
  {
    if |xs| > maximum {
      return false;
    }
    var ids: set<nat> := {};
    var keys: set<string> := {};
    for i := 0 to |xs|
      invariant ids == set k | 0 <= k < i :: xs[k].id
      invariant keys == set k | 0 <= k < i :: xs[k].row.fields.identityKey
      invariant ValidBatch(xs[..i], projectId, runId, maximum, includePromoted)
    {
      var x := xs[i];
      if !ValidCandidate(x, projectId, runId, includePromoted) {
        assert x in xs;
        return false;
      }
      if x.id in ids || x.row.fields.identityKey in keys {
        return false;
      }
      ids := ids + {x.id};
      keys := keys + {x.row.fields.identityKey};
      assert xs[..i + 1] == xs[..i] + [x];
    }
    assert xs[..|xs|] == xs;
    ok := true;
  }

  // ----- prepare ----------------------------------------------------------------------------------------------

  function Fetch(s: Store, projectId: nat, runId: nat, k: nat, includePromoted: bool): seq<Listed> {
    ListForRun(s, projectId, runId, k, Discovered)
    + if includePromoted then ListForRun(s, projectId, runId, k, Promoted) else []
  }

  function BuildInput(size: Request -> nat, projectId: nat, runId: nat, goal: string, ordered: seq<Listed>,
                      evidence: map<string, Evidence>): Result<SelectionInput, SelectionError>
  {
    var request := RequestOf(goal, ordered, evidence);
    var selection := SelectionInput(projectId, runId, request, BindingsOf(ordered));
    if !ValidRequest(request) then Err(Inconsistent)
    else if size(request) > MAX_REQUEST_BYTES then Err(InvalidInput)
    else if ValidSelection(selection) then Ok(selection)
    else Err(Inconsistent)
  }

  lemma NamesInBatch(xs: seq<Listed>, k: nat, projectId: nat, runId: nat, maximum: nat, includePromoted: bool)
    requires ValidBatch(xs, projectId, runId, maximum, includePromoted)
    ensures forall x :: x in Take(k, Sorted(xs)) ==> x in xs && ValidCandidate(x, projectId, runId, includePromoted)
    ensures forall i :: 0 <= i < |Take(k, Sorted(xs))| ==> Take(k, Sorted(xs))[i].row.fields.name.Some?
    ensures |Take(k, Sorted(xs))| == if |xs| < k then |xs| else k
  {
    InsertAllMembers([], xs);
    var shown := Take(k, Sorted(xs));
    forall x | x in shown
      ensures x in xs && ValidCandidate(x, projectId, runId, includePromoted)
    {
      assert x in Sorted(xs);
    }
    assert forall i :: 0 <= i < |shown| ==> shown[i] in shown;
  }

  ghost function PrepareSelection(s: Store, size: Request -> nat, projectId: nat, runId: nat, goal: string, k: nat,
                                  includePromoted: bool,
                                  evidence: map<string, Evidence>): Result<SelectionInput, SelectionError>
  {
    if projectId == 0 || runId == 0 || !ValidGoal(goal) || !(1 <= k <= 5) then Err(InvalidInput)
    else if runId !in s.runs || s.runs[runId].projectId != projectId then Err(RunNotFound)
    else if s.runs[runId].status == NotFound then Err(NoCandidates)
    else if s.runs[runId].status in {Pending, Failed} then Err(RunNotReady)
    else
      var fetched := Fetch(s, projectId, runId, k, includePromoted);
      var maximum := if includePromoted then k * 2 else k;
      if !ValidBatch(fetched, projectId, runId, maximum, includePromoted) then Err(Inconsistent)
      else if fetched == [] then Err(NoCandidates)
      else BuildInput(size, projectId, runId, goal, Take(k, Sorted(fetched)), evidence)
  }

  datatype Decision = NoSelection | Select(index: nat)

  /** The ids bound to an index. */
  function Bound(bindings: seq<Binding>, index: nat): seq<nat> {
    if |bindings| == 0 then []
    else
      Bound(bindings[..|bindings| - 1], index)
      + if bindings[|bindings| - 1].index == index then [bindings[|bindings| - 1].candidateId] else []
  }

  function ResolveCandidate(size: Request -> nat, x: SelectionInput, decision: Decision):
    Result<Option<nat>, SelectionError>
  {
    if !ValidSelection(x) || size(x.request) > MAX_REQUEST_BYTES then Err(Inconsistent)
    else match decision
      case NoSelection => Ok(None)
      case Select(index) =>
        var matches := Bound(x.bindings, index);
        if |matches| != 1 then Err(Inconsistent) else Ok(Some(matches[0]))
  }

  function ResolveExistingCompany(s: Store, size: Request -> nat, x: SelectionInput, decision: Decision):
    Result<Option<nat>, SelectionError>
  {
    match ResolveCandidate(size, x, decision)
    case Err(error) => Err(error)
    case Ok(None) => Ok(None)
    case Ok(Some(id)) =>
      if !InProject(s, x.projectId, id) then Err(Inconsistent)
      else if !ValidCandidate(Listed(id, s.candidates[id]), x.projectId, x.runId, true) then Err(Inconsistent)
      else if s.candidates[id].status == Promoted then Ok(s.candidates[id].promotedCompany)
      else Ok(None)
  }

  class AgentCompanySelectionService {
    const session: Session
    const size: Request -> nat

    constructor (session: Session, size: Request -> nat)
      ensures this.session == session && this.size == size
    {
      this.session, this.size := session, size;
    }

    method Prepare(projectId: nat, runId: nat, goal: string, k: nat, includePromoted: bool,
                   evidence: map<string, Evidence>)
      returns (r: Result<SelectionInput, SelectionError>)
      ensures r == PrepareSelection(session.View(), size, projectId, runId, goal, k, includePromoted, evidence)
    {
      if projectId == 0 || runId == 0 || !ValidGoal(goal) || !(1 <= k <= 5) {
        return Err(InvalidInput);
      }
      if runId !in session.runs || session.runs[runId].projectId != projectId {
        return Err(RunNotFound);
      }
      var status := session.runs[runId].status;
      if status == NotFound {
        return Err(NoCandidates);
      }
      if status == Pending || status == Failed {
        return Err(RunNotReady);
      }
      var fetched := ListForRun(session.View(), projectId, runId, k, Discovered);
      if includePromoted {
        fetched := fetched + ListForRun(session.View(), projectId, runId, k, Promoted);
      }
      assert fetched == Fetch(session.View(), projectId, runId, k, includePromoted);
      var maximum := k * if includePromoted then 2 else 1;
      var ok := ValidateCandidates(fetched, projectId, runId, maximum, includePromoted);
      if !ok {
        return Err(Inconsistent);
      }
      if fetched == [] {
        return Err(NoCandidates);
      }
      r := Build(projectId, runId, goal, Take(k, Sorted(fetched)), evidence);
    }

    /** Numbers the rows from one, growing the shown candidates and their bindings side by side. */
    method Build(projectId: nat, runId: nat, goal: string, ordered: seq<Listed>, evidence: map<string, Evidence>)
      returns (r: Result<SelectionInput, SelectionError>)
      ensures r == BuildInput(size, projectId, runId, goal, ordered, evidence)
    {
      var shown: seq<Shown> := [];
      var bindings: seq<Binding> := [];
      for i := 0 to |ordered|
        invariant |shown| == |bindings| == i
        invariant forall k :: 0 <= k < i ==>
          shown[k] == ShowRow(ordered[k], k + 1, evidence) && bindings[k] == Binding(k + 1, ordered[k].id)
      {
        shown := shown + [ShowRow(ordered[i], i + 1, evidence)];
        bindings := bindings + [Binding(i + 1, ordered[i].id)];
      }
      var request := Request(goal, shown);
      assert request == RequestOf(goal, ordered, evidence) && bindings == BindingsOf(ordered);
      if !ValidRequest(request) {
        return Err(Inconsistent);
      }
      if size(request) > MAX_REQUEST_BYTES {
        return Err(InvalidInput);
      }
      var selection := SelectionInput(projectId, runId, request, bindings);
      r := if ValidSelection(selection) then Ok(selection) else Err(Inconsistent);
    }
  }

  // ----- What the selection guarantees --------------------------------------------------------------------------

  function EligibleStatuses(includePromoted: bool): set<CandidateStatus> {
    if includePromoted then {Discovered, Promoted} else {Discovered}
  }

  /** The rows a selection is about: all of the run with an eligible status, in order. */
  function Eligible(s: Store, projectId: nat, runId: nat, includePromoted: bool): seq<Listed> {
    Sorted(RowsOfRun(s.candidates, s.nextCandidate, projectId, runId, EligibleStatuses(includePromoted)))
  }

  lemma TakeOnce(s: Store, projectId: nat, runId: nat, k: nat, includePromoted: bool)
    ensures Take(k, Sorted(Fetch(s, projectId, runId, k, includePromoted)))
      == Take(k, Eligible(s, projectId, runId, includePromoted))
  {
    if includePromoted {
      TwoQueriesGiveTheTopK(s, projectId, runId, k);
    } else {
      RowsOfRunMembers(s.candidates, s.nextCandidate, projectId, runId, {Discovered});
      var rows := RowsOfRun(s.candidates, s.nextCandidate, projectId, runId, {Discovered});
      SortedIsInOrder([], rows);
      InsertAllKeepsIds([], rows);
      PrefixIsFixed(k, Sorted(rows));
      var fetched := ListForRun(s, projectId, runId, k, Discovered);
      assert Fetch(s, projectId, runId, k, false) == fetched;
    }
  }

  /**
   A selection shows the first k eligible rows of the run, in order: the candidate shown under index i and the
   id bound to it are those of the i-th row, and no id is bound twice.
   */
  lemma SelectionShowsTopK(s: Store, size: Request -> nat, projectId: nat, runId: nat, goal: string, k: nat,
                           includePromoted: bool, evidence: map<string, Evidence>, x: SelectionInput)
    requires PrepareSelection(s, size, projectId, runId, goal, k, includePromoted, evidence) == Ok(x)
    ensures var top := Take(k, Eligible(s, projectId, runId, includePromoted));
      && 1 <= |x.bindings| == |x.request.candidates| == |top| <= k
      && (forall i :: 0 <= i < |top| ==>
          && x.bindings[i] == Binding(i + 1, top[i].id)
          && top[i].row.fields.name.Some? && x.request.candidates[i] == ShowRow(top[i], i + 1, evidence))
      && ValidSelection(x) && x.projectId == projectId && x.runId == runId && size(x.request) <= MAX_REQUEST_BYTES
  {
    TakeOnce(s, projectId, runId, k, includePromoted);
    var fetched := Fetch(s, projectId, runId, k, includePromoted);
    NamesInBatch(fetched, k, projectId, runId, if includePromoted then k * 2 else k, includePromoted);
  }

  lemma {:induction false} BoundOnce(bindings: seq<Binding>, index: nat)
    requires forall i :: 0 <= i < |bindings| ==> bindings[i].index == i + 1
    ensures Bound(bindings, index) == if 1 <= index <= |bindings| then [bindings[index - 1].candidateId] else []
  {
    if |bindings| != 0 {
      BoundOnce(bindings[..|bindings| - 1], index);
    }
  }

  /**
   An answer i resolves exactly when 1 <= i <= n, to the id of the i-th candidate shown, and different answers
   resolve to different ids.
   */
  lemma ResolveFindsTheShown(size: Request -> nat, x: SelectionInput, index: nat, other: nat)
    requires ValidSelection(x) && size(x.request) <= MAX_REQUEST_BYTES
    ensures ResolveCandidate(size, x, Select(index)) ==
      if 1 <= index <= |x.bindings| then Ok(Some(x.bindings[index - 1].candidateId)) else Err(Inconsistent)
    ensures ResolveCandidate(size, x, Select(index)).Ok? && index != other ==>
      ResolveCandidate(size, x, Select(index)) != ResolveCandidate(size, x, Select(other))
  {
    BoundOnce(x.bindings, index);
    BoundOnce(x.bindings, other);
  }

  /** On the tables it was prepared from, an answer of the selection names a company exactly for a PROMOTED row. */
  lemma ResolveFindsTheCompany(s: Store, size: Request -> nat, projectId: nat, runId: nat, goal: string, k: nat,
                               evidence: map<string, Evidence>, x: SelectionInput, index: nat)
    requires PrepareSelection(s, size, projectId, runId, goal, k, true, evidence) == Ok(x)
    requires 1 <= index <= |x.bindings|
    ensures index <= |Take(k, Eligible(s, projectId, runId, true))|
    ensures var row := Take(k, Eligible(s, projectId, runId, true))[index - 1].row;
      ResolveExistingCompany(s, size, x, Select(index))
        == Ok(if row.status == Promoted then row.promotedCompany else None)
  {
    SelectionShowsTopK(s, size, projectId, runId, goal, k, true, evidence, x);
    ResolveFindsTheShown(size, x, index, index);
    TakeOnce(s, projectId, runId, k, true);
    var fetched := Fetch(s, projectId, runId, k, true);
    NamesInBatch(fetched, k, projectId, runId, k * 2, true);
    var top := Take(k, Eligible(s, projectId, runId, true));
    assert top[index - 1] in top;
    EligibleMembers(s, projectId, runId, true);
    assert top[index - 1] in Eligible(s, projectId, runId, true);
  }

  lemma EligibleMembers(s: Store, projectId: nat, runId: nat, includePromoted: bool)
    ensures forall x :: x in Eligible(s, projectId, runId, includePromoted) <==>
      && x.id < s.nextCandidate && x.id in s.candidates && x.row == s.candidates[x.id]
      && OfRun(x.row, projectId, runId, EligibleStatuses(includePromoted))
  {
    var rows := RowsOfRun(s.candidates, s.nextCandidate, projectId, runId, EligibleStatuses(includePromoted));
    RowsOfRunMembers(s.candidates, s.nextCandidate, projectId, runId, EligibleStatuses(includePromoted));
    InsertAllMembers([], rows);
  }

  /** On tables that meet the invariant a fetched row is refused only for the values it would show. */
  lemma FetchedRowsAreValid(s: Store, projectId: nat, runId: nat, k: nat, includePromoted: bool)
    requires Inv(s) && projectId > 0
    ensures var fetched := Fetch(s, projectId, runId, k, includePromoted);
      ValidBatch(fetched, projectId, runId, if includePromoted then k * 2 else k, includePromoted) <==>
      forall x :: x in fetched ==> Describable(x.row)
  {
    var fetched := Fetch(s, projectId, runId, k, includePromoted);
    FetchedMembers(s, projectId, runId, k, includePromoted);
    forall x | x in fetched
      ensures ValidCandidate(x, projectId, runId, includePromoted) <==> Describable(x.row)
    {
      assert RowIntact(s, x.id, x.row);
    }
    forall i, j | 0 <= i < j < |fetched|
      ensures fetched[i].row.fields.identityKey != fetched[j].row.fields.identityKey
    {
      assert fetched[i] in fetched && fetched[j] in fetched;
      assert !HasKey(s.candidates[fetched[i].id], projectId, s.candidates[fetched[j].id].fields.identityKey);
    }
  }

  lemma ListMembers(s: Store, projectId: nat, runId: nat, k: nat, status: CandidateStatus)
    ensures var xs := ListForRun(s, projectId, runId, k, status);
      && |xs| <= k && DistinctIds(xs)
      && (forall x :: x in xs ==>
          x.id in s.candidates && x.row == s.candidates[x.id] && OfRun(x.row, projectId, runId, {status}))
  {
    var rows := RowsOfRun(s.candidates, s.nextCandidate, projectId, runId, {status});
    RowsOfRunMembers(s.candidates, s.nextCandidate, projectId, runId, {status});
    InsertAllMembers([], rows);
    InsertAllKeepsIds([], rows);
    var xs := Take(k, Sorted(rows));
    assert forall x :: x in xs ==> x in Sorted(rows);
  }

  lemma FetchedMembers(s: Store, projectId: nat, runId: nat, k: nat, includePromoted: bool)
    ensures var fetched := Fetch(s, projectId, runId, k, includePromoted);
      && |fetched| <= (if includePromoted then k * 2 else k) && DistinctIds(fetched)
      && (forall x :: x in fetched ==>
          x.id in s.candidates && x.row == s.candidates[x.id]
            && OfRun(x.row, projectId, runId, EligibleStatuses(includePromoted)))
  {
    ListMembers(s, projectId, runId, k, Discovered);
    ListMembers(s, projectId, runId, k, Promoted);
    var xs, ys := ListForRun(s, projectId, runId, k, Discovered), ListForRun(s, projectId, runId, k, Promoted);
    assert forall i :: 0 <= i < |xs| ==> xs[i] in xs;
    assert forall i :: 0 <= i < |ys| ==> ys[i] in ys;
  }

  lemma FetchesNothingWhenNothingIsEligible(s: Store, projectId: nat, runId: nat, k: nat, includePromoted: bool)
    requires Inv(s) && k > 0
    ensures Fetch(s, projectId, runId, k, includePromoted) == []
      <==> Eligible(s, projectId, runId, includePromoted) == []
  {
    TakeOnce(s, projectId, runId, k, includePromoted);
    var fetched := Fetch(s, projectId, runId, k, includePromoted);
    InsertAllMembers([], fetched);
  }
}
