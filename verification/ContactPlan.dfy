/** Choosing a contact from a discovery run: who is eligible, who comes first, and the token handed out. */
module ContactPlan {
  import opened Common
  import opened Text
  import opened DiscoveryTables
  import opened ContactPlanHandoff
  import opened ContactApply

  /** A candidate as the discovery run returned it after storing it. */
  datatype Persisted = Persisted(id: nat, row: ContactCandidate)

  /** A returned snapshot with the deduplication key rebuilt from the candidate it was stored for, which may raise. */
  datatype Returned = Returned(stored: Persisted, expectedKey: Checked<string>)

  /** What a discovery run reports. */
  datatype DiscoveryRun = DiscoveryRun(
    companyId: nat, dryRun: bool, statePersisted: bool, status: RunStatus,
    attemptedPages: int, successfulPages: int, selectedUrls: int, upserts: int,
    errors: seq<string>, expectedKeys: seq<Checked<string>>, persisted: seq<Persisted>)

  // ----- One snapshot for each stored candidate --------------------------------------------------------------

  function PositionOf(xs: seq<Persisted>, id: nat): (at: Option<nat>)
    ensures at.Some? ==> at.value < |xs| && xs[at.value].id == id
    ensures at.None? ==> forall k :: 0 <= k < |xs| ==> xs[k].id != id
  {
    if |xs| == 0 then None
    else if xs[|xs| - 1].id == id then Some(|xs| - 1)
    else PositionOf(xs[..|xs| - 1], id)
  }

  /** The fields of a snapshot are those of a stored candidate of the company. */
  predicate ValidSnapshot(x: Persisted, companyId: nat) {
    && x.id > 0 && companyId > 0 && x.row.companyId == companyId
    && (x.row.promotedContact.Some? ==> x.row.promotedContact.value > 0)
    && x.row.confidence <= 100 && Strip(x.row.key) != ""
  }

  /** A snapshot that is one of the company's and has the key of the candidate it was stored for. */
  predicate Matches(x: Returned, companyId: nat) {
    ValidSnapshot(x.stored, companyId) && x.expectedKey == Valid(x.stored.row.key)
  }

  /** The snapshots by first appearance of their id, each the last one returned; a changed key makes them invalid. */
  function UniquePersisted(xs: seq<Returned>, companyId: nat): Checked<seq<Persisted>> {
    if |xs| == 0 then Valid([])
    else
      var x := xs[|xs| - 1];
      var earlier :- UniquePersisted(xs[..|xs| - 1], companyId);
      var at := PositionOf(earlier, x.stored.id);
      if !Matches(x, companyId) then Invalid
      else if at.Some? && earlier[at.value].row.key != x.stored.row.key then Invalid
      else Valid(PutLatest(earlier, x.stored))
  }

  function Paired(persisted: seq<Persisted>, keys: seq<Checked<string>>): seq<Returned>
    requires |persisted| == |keys|
  {
    seq(|persisted|, i requires 0 <= i < |persisted| => Returned(persisted[i], keys[i]))
  }

  /** The rules over a run's own fields, and the snapshots that are kept. */
  function ValidatedDiscovery(raw: DiscoveryRun, companyId: nat): Checked<seq<Persisted>> {
    if raw.companyId != companyId || raw.dryRun || !raw.statePersisted || raw.status == Pending
       || raw.attemptedPages < 0 || raw.successfulPages < 0 || raw.selectedUrls < 0 || raw.upserts < 0
       || raw.successfulPages > raw.attemptedPages then Invalid
    else if raw.status == Succeeded || raw.status == Partial then
      if |raw.expectedKeys| == |raw.persisted| == raw.upserts then
        UniquePersisted(Paired(raw.persisted, raw.expectedKeys), companyId)
      else Invalid
    else if raw.upserts != 0 || raw.persisted != [] || raw.expectedKeys != [] then Invalid
    else Valid([])
  }

  function PutLatest(earlier: seq<Persisted>, x: Persisted): seq<Persisted> {
    match PositionOf(earlier, x.id)
    case None => earlier + [x]
    case Some(i) => earlier[i := x]
  }

  predicate DistinctCandidates(xs: seq<Persisted>) {
    forall i, j :: 0 <= i < j < |xs| ==> xs[i].id != xs[j].id
  }

  /** The last snapshot with an id. */
  predicate IsLatest(xs: seq<Returned>, x: Persisted) {
    exists k :: 0 <= k < |xs| && xs[k].stored == x && forall j :: k < j < |xs| ==> xs[j].stored.id != x.id
  }

  lemma LatestStays(front: seq<Returned>, x: Returned, y: Persisted)
    requires IsLatest(front, y) && y.id != x.stored.id
    ensures IsLatest(front + [x], y)
  {
    var k :| 0 <= k < |front| && front[k].stored == y && forall j :: k < j < |front| ==> front[j].stored.id != y.id;
    assert (front + [x])[k].stored == y;
  }

  lemma NewestIsLatest(front: seq<Returned>, x: Returned)
    ensures IsLatest(front + [x], x.stored)
  {
    assert (front + [x])[|front|] == x;
  }

  lemma PutReplaces(earlier: seq<Persisted>, x: Persisted)
    requires DistinctCandidates(earlier)
    ensures var kept := PutLatest(earlier, x);
      && DistinctCandidates(kept) && x in kept
      && (forall y :: y in kept ==> y == x || (y in earlier && y.id != x.id))
      && (forall y :: y in earlier && y.id != x.id ==> y in kept)
  {
    var kept := PutLatest(earlier, x);
    match PositionOf(earlier, x.id)
    case None => assert kept[|earlier|] == x;
    case Some(i) =>
      assert kept[i] == x;
      forall y | y in earlier && y.id != x.id
        ensures y in kept
      {
        var k :| 0 <= k < |earlier| && earlier[k] == y;
        assert kept[k] == y;
      }
  }

  /** Every id that was returned is kept once, with its latest snapshot. */
  lemma {:induction false} UniqueAreLatest(xs: seq<Returned>, companyId: nat)
    requires UniquePersisted(xs, companyId).Valid?
    ensures DistinctCandidates(UniquePersisted(xs, companyId).value)
    ensures forall y :: y in UniquePersisted(xs, companyId).value <==> IsLatest(xs, y)
  {
    if |xs| != 0 {
      var front, x := xs[..|xs| - 1], xs[|xs| - 1];
      UniqueAreLatest(front, companyId);
      assert xs == front + [x];
      PutKeepsLatest(front, UniquePersisted(front, companyId).value, x);
    }
  }

  lemma PutKeepsLatest(front: seq<Returned>, earlier: seq<Persisted>, x: Returned)
    requires DistinctCandidates(earlier) && forall y :: y in earlier <==> IsLatest(front, y)
    ensures DistinctCandidates(PutLatest(earlier, x.stored))
    ensures forall y :: y in PutLatest(earlier, x.stored) <==> IsLatest(front + [x], y)
  {
    PutReplaces(earlier, x.stored);
    NewestIsLatest(front, x);
    forall y | y in earlier && y.id != x.stored.id
      ensures IsLatest(front + [x], y)
    {
      LatestStays(front, x, y);
    }
    forall y | IsLatest(front + [x], y)
      ensures y in PutLatest(earlier, x.stored)
    {
      LatestInFront(front, x, y);
    }
  }

  lemma LatestInFront(front: seq<Returned>, x: Returned, y: Persisted)
    requires IsLatest(front + [x], y)
    ensures y == x.stored || (y.id != x.stored.id && IsLatest(front, y))
  {
    var xs := front + [x];
    var k :| 0 <= k < |xs| && xs[k].stored == y && forall j :: k < j < |xs| ==> xs[j].stored.id != y.id;
    if k < |front| {
      assert xs[|front|].stored.id != y.id && front[k].stored == y;
      assert forall j :: k < j < |front| ==> front[j] == xs[j];
    }
  }

  /** Snapshots of one id never disagree about the key. */
  predicate KeysAgree(xs: seq<Returned>) {
    forall i, j :: 0 <= i < j < |xs| && xs[i].stored.id == xs[j].stored.id ==>
      xs[i].stored.row.key == xs[j].stored.row.key
  }

  predicate KeyAgrees(front: seq<Returned>, x: Persisted) {
    forall i :: 0 <= i < |front| && front[i].stored.id == x.id ==> front[i].stored.row.key == x.row.key
  }

  predicate AllMatch(xs: seq<Returned>, companyId: nat) {
    forall k :: 0 <= k < |xs| ==> Matches(xs[k], companyId)
  }

  /**
   Snapshots are accepted exactly if each is one of the company's with the key of its candidate and their
   keys agree.
   */
  lemma {:induction false} AcceptedExactlyWhenConsistent(xs: seq<Returned>, companyId: nat)
    ensures UniquePersisted(xs, companyId).Valid? <==> AllMatch(xs, companyId) && KeysAgree(xs)
  {
    if |xs| != 0 {
      var n := |xs| - 1;
      AcceptedExactlyWhenConsistent(xs[..n], companyId);
      OneMoreAgrees(xs, n, companyId);
      if UniquePersisted(xs[..n], companyId).Valid? {
        UniqueAreLatest(xs[..n], companyId);
        KeyOfKept(xs[..n], UniquePersisted(xs[..n], companyId).value, xs[n].stored);
      }
    }
  }

  lemma OneMoreAgrees(xs: seq<Returned>, n: nat, companyId: nat)
    requires |xs| == n + 1
    ensures KeysAgree(xs) <==> KeysAgree(xs[..n]) && KeyAgrees(xs[..n], xs[n].stored)
    ensures AllMatch(xs, companyId) <==> AllMatch(xs[..n], companyId) && Matches(xs[n], companyId)
  {
    var front := xs[..n];
    assert forall i :: 0 <= i < n ==> front[i] == xs[i];
    if KeysAgree(front) && KeyAgrees(front, xs[n].stored) {
      forall i, j | 0 <= i < j < |xs| && xs[i].stored.id == xs[j].stored.id
        ensures xs[i].stored.row.key == xs[j].stored.row.key
      {
        assert front[i] == xs[i] && (j < n ==> front[j] == xs[j]);
      }
    }
    if KeysAgree(xs) {
      forall i, j | 0 <= i < j < n && front[i].stored.id == front[j].stored.id
        ensures front[i].stored.row.key == front[j].stored.row.key
      {
        assert front[i] == xs[i] && front[j] == xs[j];
      }
    }
    if AllMatch(xs, companyId) {
      forall k | 0 <= k < n
        ensures Matches(front[k], companyId)
      {
        assert Matches(xs[k], companyId);
      }
    }
    if AllMatch(front, companyId) && Matches(xs[n], companyId) {
      forall k | 0 <= k < |xs|
        ensures Matches(xs[k], companyId)
      {
        assert k < n ==> Matches(front[k], companyId);
      }
    }
  }

  /** Among agreeing snapshots, a further one agrees exactly if the snapshot kept for its id does. */
  lemma KeyOfKept(front: seq<Returned>, kept: seq<Persisted>, x: Persisted)
    requires KeysAgree(front) && forall y :: y in kept <==> IsLatest(front, y)
    ensures var at := PositionOf(kept, x.id);
      KeyAgrees(front, x) <==> !(at.Some? && kept[at.value].row.key != x.row.key)
  {
    var at := PositionOf(kept, x.id);
    if at.Some? {
      assert kept[at.value] in kept;
      var k :| 0 <= k < |front| && front[k].stored == kept[at.value] && forall j :: k < j < |front| ==>
        front[j].stored.id != x.id;
      assert forall i :: 0 <= i < |front| && front[i].stored.id == x.id ==> i <= k;
    } else {
      forall i | 0 <= i < |front|
        ensures front[i].stored.id != x.id
      {
        var last := LastWithId(front, i);
        assert last in kept;
      }
    }
  }

  lemma LastWithId(xs: seq<Returned>, i: nat) returns (last: Persisted)
    requires i < |xs|
    ensures last.id == xs[i].stored.id && IsLatest(xs, last)
    decreases |xs| - i
  {
    if j :| i < j < |xs| && xs[j].stored.id == xs[i].stored.id {
      last := LastWithId(xs, j);
    } else {
      last := xs[i].stored;
    }
  }

  // ----- Roles ---------------------------------------------------------------------------------------------------

  /** How a title is read: folded, cut at everything that is no letter or digit. */
  datatype Reading = Reading(casefold: string -> string, isAlnum: char -> bool)

  function PhraseTokens(reading: Reading, value: string): seq<string> {
    var folded := reading.casefold(value);
    Words(seq(|folded|, i requires 0 <= i < |folded| => if reading.isAlnum(folded[i]) then folded[i] else ' '))
  }

  predicate PhraseAt(tokens: seq<string>, phrase: seq<string>, i: int) {
    0 <= i <= |tokens| - |phrase| && tokens[i..i + |phrase|] == phrase
  }

  predicate ContainsPhrase(tokens: seq<string>, phrase: seq<string>) {
    |phrase| > 0 && exists i :: 0 <= i <= |tokens| && PhraseAt(tokens, phrase, i)
  }

  predicate InGroup(tokens: seq<string>, phrases: seq<seq<string>>) {
    exists k :: 0 <= k < |phrases| && ContainsPhrase(tokens, phrases[k])
  }

  /** The first group one of whose phrases the title contains; the number of groups if there is none. */
  function RolePriority(tokens: seq<string>, groups: seq<seq<seq<string>>>): (priority: nat)
    ensures priority <= |groups|
    ensures priority < |groups| ==> InGroup(tokens, groups[priority])
    ensures forall k :: 0 <= k < priority ==> !InGroup(tokens, groups[k])
  {
    if |groups| == 0 then 0
    else
      var earlier := RolePriority(tokens, groups[..|groups| - 1]);
      if earlier < |groups| - 1 then earlier
      else if InGroup(tokens, groups[|groups| - 1]) then |groups| - 1 else |groups|
  }

  const ROLE_GROUPS: seq<seq<seq<string>>> := [
    [["procurement"], ["purchasing"], ["sourcing"], ["buyer"], ["vendor"], ["partnership"], ["partnerships"],
     ["business", "development"]],
    [["founder"], ["co", "founder"], ["cofounder"], ["owner"], ["principal"], ["managing", "partner"], ["president"],
     ["chief", "executive"], ["ceo"]],
    [["creative", "director"], ["design", "director"], ["interior", "design", "director"], ["studio", "director"]],
    [["project", "director"], ["senior", "interior", "designer"], ["interior", "designer"]]]

  // ----- Eligible candidates, ranked ------------------------------------------------------------------------------

  predicate EligibleContact(x: Persisted, companyId: nat) {
    && x.row.status == Discovered && x.id > 0 && x.row.companyId == companyId && Strip(x.row.key) != ""
    && x.row.confidence <= 100 && ContactText(x.row.name).Some?
  }

  function EligibleContacts(xs: seq<Persisted>, companyId: nat): seq<Persisted> {
    if |xs| == 0 then []
    else
      var earlier, x := EligibleContacts(xs[..|xs| - 1], companyId), xs[|xs| - 1];
      if EligibleContact(x, companyId) then earlier + [x] else earlier
  }

  function Role(reading: Reading, groups: seq<seq<seq<string>>>, x: Persisted): nat {
    var title := ContactText(x.row.title);
    RolePriority(PhraseTokens(reading, if title.Some? then title.value else ""), groups)
  }

  /** Role first, then those with an address, then higher confidence, then lower id. */
  predicate RanksBefore(reading: Reading, groups: seq<seq<seq<string>>>, a: Persisted, b: Persisted) {
    var p, q := Role(reading, groups, a), Role(reading, groups, b);
    var noMailA, noMailB := ContactText(a.row.email).None?, ContactText(b.row.email).None?;
    if p != q then p < q
    else if noMailA != noMailB then noMailB
    else if a.row.confidence != b.row.confidence then a.row.confidence > b.row.confidence
    else a.id < b.id
  }

  /** The head of the sorted list of eligible candidates. */
  function Selected(reading: Reading, groups: seq<seq<seq<string>>>, xs: seq<Persisted>): Option<Persisted> {
    if |xs| == 0 then None
    else
      var earlier := Selected(reading, groups, xs[..|xs| - 1]);
      var x := xs[|xs| - 1];
      if earlier.None? || RanksBefore(reading, groups, x, earlier.value) then Some(x) else earlier
  }

  lemma RankIsTransitive(reading: Reading, groups: seq<seq<seq<string>>>, a: Persisted, b: Persisted, c: Persisted)
    requires RanksBefore(reading, groups, a, b) && RanksBefore(reading, groups, b, c)
    ensures RanksBefore(reading, groups, a, c)
  {
  }

  lemma RankIsTotal(reading: Reading, groups: seq<seq<seq<string>>>, a: Persisted, b: Persisted)
    requires a.id != b.id
    ensures RanksBefore(reading, groups, a, b) <==> !RanksBefore(reading, groups, b, a)
  {
  }

  /** The selected candidate is one of the list and ranks before every other one. */
  lemma {:induction false} SelectedIsBest(reading: Reading, groups: seq<seq<seq<string>>>, xs: seq<Persisted>)
    requires DistinctCandidates(xs)
    ensures xs == [] <==> Selected(reading, groups, xs).None?
    ensures xs != [] ==> Selected(reading, groups, xs).value in xs
    ensures forall x :: x in xs && x != Selected(reading, groups, xs).value ==>
      RanksBefore(reading, groups, Selected(reading, groups, xs).value, x)
  {
    if |xs| != 0 {
      var n := |xs| - 1;
      SelectedIsBest(reading, groups, xs[..n]);
      var best := Selected(reading, groups, xs).value;
      forall x | x in xs && x != best
        ensures RanksBefore(reading, groups, best, x)
      {
        RanksAfterBest(reading, groups, xs, n, best, x);
      }
    }
  }

  lemma RanksAfterBest(reading: Reading, groups: seq<seq<seq<string>>>, xs: seq<Persisted>, n: nat, best: Persisted,
                       x: Persisted)
    requires |xs| == n + 1 && DistinctCandidates(xs) && x in xs && x != best
      && Selected(reading, groups, xs) == Some(best)
    requires n > 0 ==> Selected(reading, groups, xs[..n]).Some? && Selected(reading, groups, xs[..n]).value in xs[..n]
    requires forall y :: n > 0 && y in xs[..n] && y != Selected(reading, groups, xs[..n]).value ==>
      RanksBefore(reading, groups, Selected(reading, groups, xs[..n]).value, y)
    ensures RanksBefore(reading, groups, best, x)
  {
    if n > 0 {
      var earlier, last := Selected(reading, groups, xs[..n]).value, xs[n];
      assert x in xs[..n] || x == last;
      var k :| 0 <= k < n && xs[k] == earlier;
      RankIsTotal(reading, groups, earlier, last);
      if best == last && x != earlier {
        RankIsTransitive(reading, groups, last, earlier, x);
      }
    }
  }

  lemma {:induction false} EligibleAreListed(xs: seq<Persisted>, companyId: nat)
    requires DistinctCandidates(xs)
    ensures DistinctCandidates(EligibleContacts(xs, companyId))
    ensures forall x :: x in EligibleContacts(xs, companyId) <==> x in xs && EligibleContact(x, companyId)
  {
    if |xs| != 0 {
      var n := |xs| - 1;
      EligibleAreListed(xs[..n], companyId);
      var front := EligibleContacts(xs[..n], companyId);
      forall i | 0 <= i < |front|
        ensures front[i].id != xs[n].id
      {
        assert front[i] in front;
        var k :| 0 <= k < n && xs[..n][k] == front[i];
        assert xs[k].id != xs[n].id;
      }
      assert xs == xs[..n] + [xs[n]];
    }
  }

  // ----- The plan -------------------------------------------------------------------------------------------------

  datatype ContactPlanInput = ContactPlanInput(projectId: nat, companyId: nat, goal: string)

  /** The chosen candidate, the proposals and the token; nobody when no candidate is eligible. */
  datatype Choice = Nobody | Chosen(candidate: Persisted, proposals: Proposals, token: string)

  /**
   What the provider does for a plan: it cannot be built, or it has a name, runs a discovery or raises, and may
   fail to close.
   */
  datatype Provided = NoProvider | Provider(name: Option<string>, run: Option<DiscoveryRun>, closes: bool)

  datatype ContactPlanReport = ContactPlanReport(
    projectId: nat, companyId: nat, companyName: string, website: string, goal: string, provider: string,
    status: RunStatus, attemptedPages: int, successfulPages: int, selectedUrls: int, upserts: int,
    staged: nat, eligible: nat, choice: Choice)

  datatype ContactPlanError =
    | InvalidInput | ProjectMissing | CompanyMissing | WebsiteMissing | BindingMismatch | ProviderFailed
    | DiscoveryInvalid | DiscoveryNotPersisted | SelectionInconsistent | ReportRefused | InternalFailure

  const PROVIDER_INVALID_RESULT := "provider_invalid_result"

  /** The field rules and the validator of a report. */
  predicate ValidPlanReport(r: ContactPlanReport) {
    && r.projectId > 0 && r.companyId > 0
    && Fits(r.companyName, 255) && Fits(r.website, 255) && Fits(r.goal, 2000) && Fits(r.provider, 100)
    && r.attemptedPages >= 0 && r.successfulPages >= 0 && r.selectedUrls >= 0 && r.upserts >= 0
    && r.successfulPages <= r.attemptedPages && r.eligible <= r.staged <= r.upserts
    && r.status in {Succeeded, Partial, NotFound}
    && match r.choice
       case Nobody => r.eligible == 0
       case Chosen(x, proposals, _) =>
         && r.eligible > 0 && r.status != NotFound && x.id > 0 && x.row.confidence <= 100
         && x.row.name.Some? && Fits(x.row.name.value, 255) && OptionalFits(x.row.title, 255)
         && OptionalFits(x.row.email, 255) && OptionalFits(x.row.phone, 100) && OptionalFits(x.row.sourceUrl, 500)
         && RequiredProposals(proposals).Valid?
  }

  function PlannedSubject(data: ContactPlanInput, company: CompanyRow, state: StateRow, x: Persisted): Subject {
    Subject(data.projectId, data.companyId, Some(company.name), company.website, Collapse(data.goal), state.provider,
            state.checkedAt,
            x.id, x.row.key, x.row.name, x.row.title, x.row.email, x.row.phone, x.row.sourceUrl, x.row.sourceType,
            x.row.confidence)
  }

  /** The checks before the provider is built; the company keeps its collapsed name and website. */
  function ReadCompany(data: ContactPlanInput, projectFound: bool, company: Option<CompanyRow>):
    Result<(string, string), ContactPlanError>
  {
    if data.projectId == 0 || data.companyId == 0 || !Fits(data.goal, 2000) then Err(InvalidInput)
    else if !projectFound then Err(ProjectMissing)
    else if company.None? then Err(CompanyMissing)
    else
      var name, website := ContactText(Some(company.value.name)), ContactText(company.value.website);
      if website.None? then Err(WebsiteMissing)
      else if name.None? || company.value.projectId == 0 then Err(InternalFailure)
      else if company.value.projectId != data.projectId then Err(BindingMismatch)
      else Ok((name.value, website.value))
  }

  /** The state the run stored agrees with what the run reported. */
  predicate StateAgrees(state: Option<StateRow>, provider: string, raw: DiscoveryRun) {
    && state.Some? && state.value.provider == provider && state.value.status == raw.status
    && state.value.lastError == (if raw.errors == [] then None else Some(raw.errors[0]))
    && Instant(state.value.checkedAt).Valid?
  }

  /** Building a report: a refusal is an error of the selection only when somebody was chosen. */
  function BuildReport(r: ContactPlanReport): Result<ContactPlanReport, ContactPlanError> {
    if ValidPlanReport(r) then Ok(r) else Err(if r.choice.Nobody? then ReportRefused else SelectionInconsistent)
  }

  function Choose(rules: Rules, data: ContactPlanInput, company: CompanyRow, name: string, state: StateRow,
                  selected: Option<Persisted>): Checked<Choice>
  {
    if selected.None? then Valid(Nobody)
    else
      var x := selected.value;
      var person := if x.row.name.Some? then Collapse(x.row.name.value) else "";
      var proposals := BuildProposals(name, person, ContactText(x.row.title), Collapse(data.goal));
      var token :- Token(rules.hash, PlannedSubject(data, company, state, x));
      Valid(Chosen(x, proposals, token))
  }

  function Conclude(rules: Rules, reading: Reading, data: ContactPlanInput, company: CompanyRow,
                    texts: (string, string), provider: string, state: StateRow, raw: DiscoveryRun,
                    persisted: seq<Persisted>): Result<ContactPlanReport, ContactPlanError>
  {
    var eligible := EligibleContacts(persisted, data.companyId);
    match Choose(rules, data, company, texts.0, state, Selected(reading, ROLE_GROUPS, eligible))
    case Invalid => Err(SelectionInconsistent)
    case Valid(choice) =>
      BuildReport(ContactPlanReport(
        data.projectId, data.companyId, texts.0, texts.1, Collapse(data.goal), provider, raw.status,
        raw.attemptedPages, raw.successfulPages, raw.selectedUrls, raw.upserts, |persisted|, |eligible|, choice))
  }

  /** The plan once the provider is built. */
  function Discover(rules: Rules, reading: Reading, data: ContactPlanInput, company: CompanyRow,
                    texts: (string, string), name: Option<string>, run: Option<DiscoveryRun>, state: Option<StateRow>):
    Result<ContactPlanReport, ContactPlanError>
  {
    var provider := ContactText(name);
    if provider.None? || |provider.value| > 100 then Err(DiscoveryInvalid)
    else if run.None? then Err(DiscoveryNotPersisted)
    else
      match ValidatedDiscovery(run.value, data.companyId)
      case Invalid => Err(DiscoveryInvalid)
      case Valid(persisted) =>
        if !StateAgrees(state, provider.value, run.value) then Err(DiscoveryInvalid)
        else if run.value.status == Failed then
          Err(if PROVIDER_INVALID_RESULT in run.value.errors then DiscoveryInvalid else ProviderFailed)
        else Conclude(rules, reading, data, company, texts, provider.value, state.value, run.value, persisted)
  }

  function PlanContact(rules: Rules, reading: Reading, data: ContactPlanInput, projectFound: bool,
                       company: Option<CompanyRow>, provided: Provided, state: Option<StateRow>):
    Result<ContactPlanReport, ContactPlanError>
  {
    match ReadCompany(data, projectFound, company)
    case Err(error) => Err(error)
    case Ok(texts) =>
      match provided
      case NoProvider => Err(ProviderFailed)
      case Provider(name, run, closes) =>
        var outcome := Discover(rules, reading, data, company.value, texts, name, run, state);
        if outcome.Ok? && !closes then Err(InternalFailure) else outcome
  }

  /** Walks the returned snapshots, keeping the position of every id; an id seen before has its snapshot replaced. */
  method ValidatePersisted(returned: seq<Returned>, companyId: nat) returns (r: Checked<seq<Persisted>>)
    ensures r == UniquePersisted(returned, companyId)
  {
    var kept: seq<Persisted> := [];
    for i := 0 to |returned|
      invariant UniquePersisted(returned[..i], companyId) == Valid(kept)
    {
      assert returned[..i + 1][..i] == returned[..i];
      var x := returned[i].stored;
      var at := PositionOf(kept, x.id);
      if !Matches(returned[i], companyId) || (at.Some? && kept[at.value].row.key != x.row.key) {
        InvalidStays(returned, i + 1, companyId);
        return Invalid;
      }
      kept := if at.Some? then kept[at.value := x] else kept + [x];
    }
    assert returned[..|returned|] == returned;
    r := Valid(kept);
  }

  method ValidateDiscovery(raw: DiscoveryRun, companyId: nat) returns (r: Checked<seq<Persisted>>)
    ensures r == ValidatedDiscovery(raw, companyId)
  {
    if raw.companyId != companyId || raw.dryRun || !raw.statePersisted || raw.status == Pending
       || raw.attemptedPages < 0 || raw.successfulPages < 0 || raw.selectedUrls < 0 || raw.upserts < 0
       || raw.successfulPages > raw.attemptedPages {
      return Invalid;
    }
    if raw.status == Succeeded || raw.status == Partial {
      if !(|raw.expectedKeys| == |raw.persisted| == raw.upserts) {
        return Invalid;
      }
      r := ValidatePersisted(Paired(raw.persisted, raw.expectedKeys), companyId);
    } else {
      r := if raw.upserts != 0 || raw.persisted != [] || raw.expectedKeys != [] then Invalid else Valid([]);
    }
  }

  lemma {:induction false} InvalidStays(xs: seq<Returned>, n: nat, companyId: nat)
    requires n <= |xs| && UniquePersisted(xs[..n], companyId).Invalid?
    ensures UniquePersisted(xs, companyId).Invalid?
    decreases |xs|
  {
    if n < |xs| {
      assert xs[..|xs| - 1][..n] == xs[..n];
      InvalidStays(xs[..|xs| - 1], n, companyId);
    } else {
      assert xs[..n] == xs;
    }
  }

  method CollectEligible(persisted: seq<Persisted>, companyId: nat) returns (eligible: seq<Persisted>)
    ensures eligible == EligibleContacts(persisted, companyId)
  {
    eligible := [];
    for i := 0 to |persisted|
      invariant eligible == EligibleContacts(persisted[..i], companyId)
    {
      assert persisted[..i + 1][..i] == persisted[..i];
      if EligibleContact(persisted[i], companyId) {
        eligible := eligible + [persisted[i]];
      }
    }
    assert persisted[..|persisted|] == persisted;
  }

  method Plan(rules: Rules, reading: Reading, data: ContactPlanInput, projectFound: bool,
              company: Option<CompanyRow>, provided: Provided, state: Option<StateRow>)
    returns (r: Result<ContactPlanReport, ContactPlanError>)
    ensures r == PlanContact(rules, reading, data, projectFound, company, provided, state)
  {
    var snapshot := ReadCompany(data, projectFound, company);
    if snapshot.Err? {
      return Err(snapshot.error);
    }
    if provided.NoProvider? {
      return Err(ProviderFailed);
    }
    r := PlanOver(rules, reading, data, company.value, snapshot.value, provided.name, provided.run, state);
    if r.Ok? && !provided.closes {
      r := Err(InternalFailure);
    }
  }

  method PlanOver(rules: Rules, reading: Reading, data: ContactPlanInput, company: CompanyRow,
                  texts: (string, string), name: Option<string>, run: Option<DiscoveryRun>, state: Option<StateRow>)
    returns (r: Result<ContactPlanReport, ContactPlanError>)
    ensures r == Discover(rules, reading, data, company, texts, name, run, state)
  {
    var provider := ContactText(name);
    if provider.None? || |provider.value| > 100 {
      return Err(DiscoveryInvalid);
    }
    if run.None? {
      return Err(DiscoveryNotPersisted);
    }
    var persisted := ValidateDiscovery(run.value, data.companyId);
    if persisted.Invalid? || !StateAgrees(state, provider.value, run.value) {
      return Err(DiscoveryInvalid);
    }
    if run.value.status == Failed {
      return Err(if PROVIDER_INVALID_RESULT in run.value.errors then DiscoveryInvalid else ProviderFailed);
    }
    var eligible := CollectEligible(persisted.value, data.companyId);
    var choice := Choose(rules, data, company, texts.0, state.value, Selected(reading, ROLE_GROUPS, eligible));
    if choice.Invalid? {
      return Err(SelectionInconsistent);
    }
    r := BuildReport(ContactPlanReport(
      data.projectId, data.companyId, texts.0, texts.1, Collapse(data.goal), provider.value, run.value.status,
      run.value.attemptedPages, run.value.successfulPages, run.value.selectedUrls, run.value.upserts,
      |persisted.value|, |eligible|, choice.value));
  }

  // ----- When a plan reports --------------------------------------------------------------------------------------

  lemma {:induction false} FewerAreKept(xs: seq<Returned>, companyId: nat)
    requires UniquePersisted(xs, companyId).Valid?
    ensures |UniquePersisted(xs, companyId).value| <= |xs|
  {
    if |xs| != 0 {
      FewerAreKept(xs[..|xs| - 1], companyId);
    }
  }

  lemma {:induction false} FewerAreEligible(xs: seq<Persisted>, companyId: nat)
    ensures |EligibleContacts(xs, companyId)| <= |xs|
    ensures forall x :: x in EligibleContacts(xs, companyId) ==> EligibleContact(x, companyId)
  {
    if |xs| != 0 {
      FewerAreEligible(xs[..|xs| - 1], companyId);
    }
  }

  lemma {:induction false} SelectedIsListed(reading: Reading, groups: seq<seq<seq<string>>>, xs: seq<Persisted>)
    ensures Selected(reading, groups, xs).None? <==> xs == []
    ensures xs != [] ==> Selected(reading, groups, xs).value in xs
  {
    if |xs| != 0 {
      SelectedIsListed(reading, groups, xs[..|xs| - 1]);
    }
  }

  /** The texts of a stored candidate stay within the bounds of a report and of a token. */
  predicate RowFits(row: ContactCandidate) {
    && Fits(row.key, 255) && row.name.Some? && Fits(row.name.value, 255)
    && OptionalFits(row.title, 255) && OptionalFits(row.email, 255)
    && OptionalFits(row.phone, 100) && OptionalFits(row.sourceUrl, 500)
  }

  /** The company's own texts stay within those bounds. */
  predicate CompanyFits(company: CompanyRow) {
    Fits(company.name, 255) && company.website.Some? && Fits(company.website.value, 255)
  }

  function FirstChoice(reading: Reading, persisted: seq<Persisted>, companyId: nat): Option<Persisted> {
    Selected(reading, ROLE_GROUPS, EligibleContacts(persisted, companyId))
  }

  lemma FitsWhenCollapsed(s: string, maximum: nat)
    ensures Fits(Collapse(s), maximum) <==> Fits(s, maximum)
  {
    RequiredOfContactText(s, maximum);
  }

  /** The token of the first choice is built exactly when the company's and the candidate's texts are bounded. */
  lemma ChoiceExactlyWhenBounded(rules: Rules, data: ContactPlanInput, company: CompanyRow, name: string,
                                 state: StateRow, x: Persisted)
    requires data.projectId > 0 && data.companyId > 0 && Fits(data.goal, 2000) && name == Collapse(company.name)
    requires Fits(state.provider, 100) && Instant(state.checkedAt).Valid? && x.id > 0 && x.row.confidence <= 100
    ensures match Choose(rules, data, company, name, state, Some(x))
      case Invalid => !(CompanyFits(company) && RowFits(x.row))
      case Valid(choice) =>
        && CompanyFits(company) && RowFits(x.row)
        && choice.Chosen? && choice.candidate == x && RequiredProposals(choice.proposals).Valid?
  {
    var subject := PlannedSubject(data, company, state, x);
    FitsWhenCollapsed(data.goal, 2000);
    CollapseIsNormal(data.goal);
    PayloadExactlyWhenBindable(subject);
    if Bindable(subject) {
      BindableTexts(subject);
    }
  }

  /** The counts of a discovery that was accepted, as the validator of a report looks at them. */
  lemma CountsAreInOrder(raw: DiscoveryRun, companyId: nat)
    requires ValidatedDiscovery(raw, companyId).Valid? && raw.status != Failed
    ensures var persisted := ValidatedDiscovery(raw, companyId).value;
      && |EligibleContacts(persisted, companyId)| <= |persisted| <= raw.upserts
      && 0 <= raw.successfulPages <= raw.attemptedPages && raw.selectedUrls >= 0
      && raw.status in {Succeeded, Partial, NotFound} && (raw.status == NotFound ==> persisted == [])
  {
    var persisted := ValidatedDiscovery(raw, companyId).value;
    FewerAreEligible(persisted, companyId);
    if raw.status == Succeeded || raw.status == Partial {
      FewerAreKept(Paired(raw.persisted, raw.expectedKeys), companyId);
    }
  }

  /** The report of a plan over bounded texts is built; its counts and its status never stand in the way. */
  lemma BuildsExactlyWhenBounded(r: ContactPlanReport, company: CompanyRow)
    requires r.projectId > 0 && r.companyId > 0 && Fits(r.goal, 2000) && company.website.Some?
    requires r.companyName == Collapse(company.name) && r.website == Collapse(company.website.value)
    requires r.eligible <= r.staged <= r.upserts && 0 <= r.successfulPages <= r.attemptedPages && r.selectedUrls >= 0
    requires r.status in {Succeeded, Partial, NotFound} && (r.status == NotFound ==> r.staged == 0)
    requires r.choice.Nobody? <==> r.eligible == 0
    requires r.choice.Chosen? ==>
      && RowFits(r.choice.candidate.row) && EligibleContact(r.choice.candidate, r.companyId)
      && RequiredProposals(r.choice.proposals).Valid?
    ensures BuildReport(r).Ok? <==> CompanyFits(company) && Fits(r.provider, 100)
  {
    FitsWhenCollapsed(company.name, 255);
    FitsWhenCollapsed(company.website.value, 255);
  }

  /** The texts that bound a report are those of its company and, if somebody was chosen, of the candidate. */
  lemma ConcludesExactlyWhenBounded(rules: Rules, reading: Reading, data: ContactPlanInput, company: CompanyRow,
                                    texts: (string, string), provider: string, state: StateRow, raw: DiscoveryRun)
    requires ValidatedDiscovery(raw, data.companyId).Valid? && raw.status != Failed
    requires data.projectId > 0 && data.companyId > 0 && Fits(data.goal, 2000)
    requires company.website.Some? && texts == (Collapse(company.name), Collapse(company.website.value))
    requires StateAgrees(Some(state), provider, raw) && Collapse(provider) == provider
    ensures var persisted := ValidatedDiscovery(raw, data.companyId).value;
      var chosen := FirstChoice(reading, persisted, data.companyId);
      Conclude(rules, reading, data, company, texts, provider, state, raw, persisted).Ok? <==>
        CompanyFits(company) && Fits(provider, 100) && (chosen.Some? ==> RowFits(chosen.value.row))
  {
    var persisted := ValidatedDiscovery(raw, data.companyId).value;
    var eligible := EligibleContacts(persisted, data.companyId);
    CountsAreInOrder(raw, data.companyId);
    FewerAreEligible(persisted, data.companyId);
    SelectedIsListed(reading, ROLE_GROUPS, eligible);
    FitsWhenCollapsed(data.goal, 2000);
    var chosen := FirstChoice(reading, persisted, data.companyId);
    if chosen.Some? && !Fits(provider, 100) {
      UnboundedProviderIsRefused(rules, data, company, texts.0, state, chosen.value);
    } else if chosen.Some? {
      ChoiceExactlyWhenBounded(rules, data, company, texts.0, state, chosen.value);
    }
    var choice := Choose(rules, data, company, texts.0, state, chosen);
    if choice.Valid? {
      BuildsExactlyWhenBounded(
        ContactPlanReport(
          data.projectId, data.companyId, texts.0, texts.1, Collapse(data.goal), provider, raw.status,
          raw.attemptedPages, raw.successfulPages, raw.selectedUrls, raw.upserts, |persisted|, |eligible|,
          choice.value),
        company);
    }
  }

  lemma UnboundedProviderIsRefused(rules: Rules, data: ContactPlanInput, company: CompanyRow, name: string,
                                   state: StateRow, x: Persisted)
    requires !Fits(state.provider, 100)
    ensures Choose(rules, data, company, name, state, Some(x)).Invalid?
  {
    PayloadExactlyWhenBindable(PlannedSubject(data, company, state, x));
  }

  /** What a plan needs of its input and its company row. */
  predicate CompanyIsPlannable(data: ContactPlanInput, projectFound: bool, company: Option<CompanyRow>) {
    && data.projectId > 0 && data.companyId > 0 && Fits(data.goal, 2000)
    && projectFound && company.Some? && company.value.projectId == data.projectId && CompanyFits(company.value)
  }

  /** What it needs of the provider, its run and the state that run left. */
  predicate RunIsPlannable(companyId: nat, provided: Provided, state: Option<StateRow>) {
    && provided.Provider? && provided.closes && provided.name.Some? && Fits(provided.name.value, 100)
    && provided.run.Some? && provided.run.value.status != Failed
    && ValidatedDiscovery(provided.run.value, companyId).Valid?
    && StateAgrees(state, Collapse(provided.name.value), provided.run.value)
  }

  /** The state a discovery run leaves: it keeps the stripped name of its provider, cut at the width of the column. */
  function StateLeft(name: string, raw: DiscoveryRun, checkedAt: Stamp): StateRow {
    var stripped := Strip(name);
    StateRow(if |stripped| > 100 then stripped[..100] else stripped, raw.status, checkedAt,
             if raw.errors == [] then None else Some(raw.errors[0]))
  }

  /** A cut text has lost one of its characters, so it is no collapsed form of the whole. */
  lemma CutIsNotCollapsed(name: string, maximum: nat)
    requires |Strip(name)| > maximum
    ensures Strip(name)[..maximum] != Collapse(name)
  {
    var stripped := Strip(name);
    var rest := stripped[maximum..];
    assert stripped == stripped[..maximum] + rest;
    MarksOfConcat(stripped[..maximum], rest);
    CollapseKeepsMarks(stripped);
    CollapseOfStrip(name);
    RStripShape(LStrip(name));
    assert rest[|rest| - 1] == stripped[|stripped| - 1];
    assert Marks(rest) > 0;
  }

  /**
   The state left by the very run a plan made agrees with it exactly when the provider's stripped name is already
   collapsed: with repeated inner whitespace in it, every plan raises.
   */
  lemma OwnStateAgreesExactlyWhenNameCollapsed(name: string, raw: DiscoveryRun, checkedAt: Stamp)
    requires ContactText(Some(name)).Some? && |Collapse(name)| <= 100 && Instant(checkedAt).Valid?
    ensures StateAgrees(Some(StateLeft(name, raw, checkedAt)), Collapse(name), raw) <==> Strip(name) == Collapse(name)
  {
    if |Strip(name)| > 100 {
      CutIsNotCollapsed(name, 100);
    }
  }

  lemma ReadsExactlyWhen(data: ContactPlanInput, projectFound: bool, company: Option<CompanyRow>)
    ensures ReadCompany(data, projectFound, company).Ok? ==>
      && data.projectId > 0 && data.companyId > 0 && Fits(data.goal, 2000)
      && projectFound && company.Some? && company.value.projectId == data.projectId && company.value.website.Some?
      && ReadCompany(data, projectFound, company).value ==
         (Collapse(company.value.name), Collapse(company.value.website.value))
    ensures CompanyIsPlannable(data, projectFound, company) ==> ReadCompany(data, projectFound, company).Ok?
  {
  }

  lemma DiscoversExactlyWhen(rules: Rules, reading: Reading, data: ContactPlanInput, company: CompanyRow,
                             texts: (string, string), provided: Provided, state: Option<StateRow>)
    requires data.projectId > 0 && data.companyId > 0 && Fits(data.goal, 2000) && provided.Provider?
    requires company.website.Some? && texts == (Collapse(company.name), Collapse(company.website.value))
    ensures
      Discover(rules, reading, data, company, texts, provided.name, provided.run, state).Ok? && provided.closes <==>
      && CompanyFits(company) && RunIsPlannable(data.companyId, provided, state)
      && var chosen := FirstChoice(reading, ValidatedDiscovery(provided.run.value, data.companyId).value,
                                   data.companyId);
         chosen.Some? ==> RowFits(chosen.value.row)
  {
    if provided.name.Some? && provided.run.Some? && state.Some? && provided.run.value.status != Failed
      && ValidatedDiscovery(provided.run.value, data.companyId).Valid?
      && StateAgrees(state, Collapse(provided.name.value), provided.run.value)
    {
      CollapseIsNormal(provided.name.value);
      FitsWhenCollapsed(provided.name.value, 100);
      ConcludesExactlyWhenBounded(rules, reading, data, company, texts, Collapse(provided.name.value), state.value,
                                  provided.run.value);
    }
  }

  /**
   A plan reports exactly when its company and its run are as above and the texts of the candidate it chooses are
   within their bounds: a FAILED run always raises, and the validator's rules over counts never refuse a report.
   */
  lemma PlansExactlyWhen(rules: Rules, reading: Reading, data: ContactPlanInput, projectFound: bool,
                         company: Option<CompanyRow>, provided: Provided, state: Option<StateRow>)
    ensures PlanContact(rules, reading, data, projectFound, company, provided, state).Ok? <==>
      && CompanyIsPlannable(data, projectFound, company) && RunIsPlannable(data.companyId, provided, state)
      && var chosen := FirstChoice(reading, ValidatedDiscovery(provided.run.value, data.companyId).value,
                                   data.companyId);
         chosen.Some? ==> RowFits(chosen.value.row)
  {
    ReadsExactlyWhen(data, projectFound, company);
    if ReadCompany(data, projectFound, company).Ok? && provided.Provider? {
      var texts := ReadCompany(data, projectFound, company).value;
      DiscoversExactlyWhen(rules, reading, data, company.value, texts, provided, state);
    }
  }

  /** A plan chooses an eligible candidate, in its latest snapshot, and no other eligible one ranks before it. */
  lemma PlanChoosesTheBest(rules: Rules, reading: Reading, data: ContactPlanInput, projectFound: bool,
                           company: Option<CompanyRow>, provided: Provided, state: Option<StateRow>,
                           report: ContactPlanReport, chosen: Persisted)
    requires PlanContact(rules, reading, data, projectFound, company, provided, state) == Ok(report)
    requires report.choice.Chosen? && report.choice.candidate == chosen
    ensures var raw := provided.run.value;
      && |raw.expectedKeys| == |raw.persisted| && EligibleContact(chosen, data.companyId)
      && IsLatest(Paired(raw.persisted, raw.expectedKeys), chosen)
      && var persisted := ValidatedDiscovery(raw, data.companyId).value;
         forall x :: x in persisted && EligibleContact(x, data.companyId) && x != chosen ==>
                     RanksBefore(reading, ROLE_GROUPS, chosen, x)
  {
    var raw := provided.run.value;
    var persisted := ValidatedDiscovery(raw, data.companyId).value;
    CountsAreInOrder(raw, data.companyId);
    SelectedIsListed(reading, ROLE_GROUPS, EligibleContacts(persisted, data.companyId));
    assert persisted != [];
    UniqueAreLatest(Paired(raw.persisted, raw.expectedKeys), data.companyId);
    EligibleAreListed(persisted, data.companyId);
    SelectedIsBest(reading, ROLE_GROUPS, EligibleContacts(persisted, data.companyId));
  }

  lemma ChosenToken(rules: Rules, reading: Reading, data: ContactPlanInput, projectFound: bool,
                    company: Option<CompanyRow>, provided: Provided, state: Option<StateRow>, report: ContactPlanReport)
    requires PlanContact(rules, reading, data, projectFound, company, provided, state) == Ok(report)
    requires report.choice.Chosen?
    ensures company.Some? && state.Some?
    ensures Token(rules.hash, PlannedSubject(data, company.value, state.value, report.choice.candidate))
      == Valid(report.choice.token)
  {
  }

  /**
   The token of a plan passes the apply as long as the rows still agree with those of the plan up to whitespace
   and time zone, the run still counts as usable and the candidate was not rejected.
   */
  lemma PlannedTokenIsAccepted(rules: Rules, reading: Reading, data: ContactPlanInput, projectFound: bool,
                               company: Option<CompanyRow>, provided: Provided, state: Option<StateRow>,
                               report: ContactPlanReport, s: Crm, apply: ContactApplyInput)
    requires PlanContact(rules, reading, data, projectFound, company, provided, state) == Ok(report)
    requires report.choice.Chosen? && apply.token == report.choice.token && ReadRows(s, apply).Ok?
    requires s.states[apply.companyId].status in {Succeeded, Partial}
      && s.candidates[apply.candidateId].status != Rejected
    requires Agree(PlannedSubject(data, company.value, state.value, report.choice.candidate), SubjectOf(s, apply))
    ensures Verify(rules, s, apply) == Ok(())
  {
    ChosenToken(rules, reading, data, projectFound, company, provided, state, report);
    SameToken(rules.hash, PlannedSubject(data, company.value, state.value, report.choice.candidate),
              SubjectOf(s, apply));
  }

  lemma SameToken(hash: Payload -> string, x: Subject, y: Subject)
    requires Agree(x, y)
    ensures Token(hash, x) == Token(hash, y)
  {
    AgreeingRowsBind(x, y);
    PayloadExactlyWhenBindable(x);
    PayloadExactlyWhenBindable(y);
    if Bindable(x) {
      PayloadsAgree(x, y);
    }
  }
}
