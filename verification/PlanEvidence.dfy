/** The evidence of a company plan: the cards of its staging report, which the plan validates once more. */
module PlanEvidence {
  import opened Common
  import opened Text
  import opened Platform
  import opened StagingNormalization
  import opened DiscoveryTables
  import opened SearchProfileDiscovery
  import opened StagingAdapter
  import opened StagingDeduplication
  import opened StagingOrchestration
  import opened CandidateLifecycle
  import opened CandidateOrder
  import opened CompanySelection
  import opened SelectionOutcomes
  import opened CompanyPlan

  // ----- Validating a report again --------------------------------------------------------------------

  function BuiltAgain(t: Tables, cards: seq<Card>): seq<Checked<Card>> {
    seq(|cards|, i requires 0 <= i < |cards| => BuildCard(t, cards[i]))
  }

  function RevalidateCards(t: Tables, cards: seq<Card>): Checked<seq<Card>> {
    AllValid(BuiltAgain(t, cards))
  }

  /** The plan's own copy of the report, before it commits the run. */
  function SnapshotStaging(t: Tables, report: RunReport): Checked<RunReport> {
    var cards :- RevalidateCards(t, report.candidates);
    match BuildResult(report.(candidates := cards))
    case Ok(snapshot) => Valid(snapshot)
    case Err(_) => Invalid
  }

  /** The cards by identity key, a later card replacing an earlier one; no adapter fills in a website summary. */
  function EvidenceOfCards(cards: seq<Card>): map<string, Evidence> {
    if |cards| == 0 then map[]
    else
      var last := cards[|cards| - 1];
      EvidenceOfCards(cards[..|cards| - 1])[last.identityKey := Evidence(last.city, last.industry, last.snippet, None)]
  }

  predicate TextFits(value: Option<string>, maximum: nat) {
    value.Some? ==> |value.value| <= maximum
  }

  /** The texts of a card are within the bounds they had before NFKC. */
  predicate CardFits(c: Card) {
    TextFits(c.city, 100) && TextFits(c.industry, 100) && TextFits(c.snippet, 1000)
  }

  /** Its texts are missing rather than blank. */
  predicate NoBlankText(c: Card) {
    && (c.city.Some? ==> Strip(c.city.value) != "") && (c.industry.Some? ==> Strip(c.industry.value) != "")
    && (c.snippet.Some? ==> Strip(c.snippet.value) != "")
  }

  predicate SameButWebsite(a: Card, b: Card) {
    a == b.(website := a.website)
  }

  /** Validated once more, the card is refused for its bounds alone and changes in its website alone. */
  predicate Settled(t: Tables, c: Card) {
    && NoBlankText(c)
    && match BuildCard(t, c)
       case Invalid => !CardFits(c)
       case Valid(again) => CardFits(c) && SameButWebsite(again, c)
  }

  // ----- One card, twice ------------------------------------------------------------------------------

  /** A shown text is left alone by a second showing, unless NFKC took it over its bound. */
  lemma TextAgain(t: Tables, value: Option<string>, maximum: nat)
    requires t.NfkcLaw() && ShownText(t, value, maximum).Valid?
    ensures var shown := ShownText(t, value, maximum).value;
      && ShownText(t, shown, maximum) == (if TextFits(shown, maximum) then Valid(shown) else Invalid)
      && (shown.Some? ==> Strip(shown.value) != "")
  {
    var shown := ShownText(t, value, maximum).value;
    if shown.Some? {
      CollapseIsNormal(t.nfkc(value.value));
      NormalStart(shown.value);
      StartKeepsText(shown.value);
    }
  }

  lemma KeyAgain(key: string)
    ensures var shown := Collapse(Strip(key));
      Collapse(Strip(shown)) == shown && |shown| <= |key|
  {
    CollapseOfStrip(key);
    CollapseIsNormal(key);
    CollapseOfStrip(Collapse(key));
    CollapseShortens(key);
  }

  lemma IdentityAgain(value: Option<string>)
    requires CleanText(value, 300).Valid?
    ensures var clean := CleanText(value, 300).value; CleanText(clean, 300) == Valid(clean)
  {
    if value.Some? {
      CollapseIsNormal(value.value);
      CollapseShortens(value.value);
    }
  }

  /** The name, country and website of a presentable row are shown, and shown again. */
  lemma FieldsAgain(t: Tables, n: Normalized)
    requires t.Lawful() && NormalForm(t, n) && Restage(t, n).Valid?
    ensures ShownText(t, n.name, 255) == Valid(n.name) && NormalizeCountryCode(t, n.countryCode) == Valid(n.countryCode)
    ensures ShownWebsite(t, n.website).Valid? && ShownWebsite(t, ShownWebsite(t, n.website).value).Valid?
  {
    var second := Restage(t, n).value;
    RestageFields(t, n);
    FieldsAreShown(t, n);
    ThirdPassSettles(t, n, second);
    RestageFields(t, second);
    FieldsAreShown(t, second);
    if n.name.Some? {
      NormalIsFixed(n.name.value);
    }
  }

  /** The card of a stored row is validated again exactly when NFKC took none of its texts over its bound. */
  lemma CardAgainExactlyWhenBounded(t: Tables, projectId: nat, row: Row, card: Card)
    requires t.Lawful() && WellFormedRow(t, projectId, row) && CandidatePreview(t, row) == Valid(card)
    ensures Settled(t, card)
  {
    var n := row.sighting.fields;
    CardExactlyWhenPresentable(t, projectId, row);
    FieldsAgain(t, n);
    CardAgain(t, n, row, card);
  }

  lemma CardAgain(t: Tables, n: Normalized, row: Row, card: Card)
    requires t.NfkcLaw() && n == row.sighting.fields && CandidatePreview(t, row) == Valid(card)
    requires ShownText(t, n.name, 255) == Valid(n.name)
    requires NormalizeCountryCode(t, n.countryCode) == Valid(n.countryCode)
    requires ShownWebsite(t, n.website).Valid? && ShownWebsite(t, ShownWebsite(t, n.website).value).Valid?
    ensures Settled(t, card)
  {
    TextAgain(t, row.draft.city, 100);
    TextAgain(t, row.draft.industry, 100);
    TextAgain(t, row.draft.snippet, 1000);
    IdentityAgain(n.websiteIdentity);
    KeyAgain(n.identityKey);
  }

  // ----- A whole report -------------------------------------------------------------------------------

  lemma CardsOfRowsSettle(t: Tables, projectId: nat, rows: seq<Row>)
    requires t.Lawful() && forall row :: row in rows ==> WellFormedRow(t, projectId, row)
    requires CandidatePreviews(t, rows).Valid?
    ensures forall c :: c in CandidatePreviews(t, rows).value ==> Settled(t, c)
  {
    var each := seq(|rows|, i requires 0 <= i < |rows| => CandidatePreview(t, rows[i]));
    AllValidExactlyWhen(each);
    var cards := CandidatePreviews(t, rows).value;
    forall i | 0 <= i < |rows|
      ensures Settled(t, cards[i])
    {
      assert each[i] == Valid(cards[i]) && rows[i] in rows;
      CardAgainExactlyWhenBounded(t, projectId, rows[i], cards[i]);
    }
  }

  predicate SameCards(again: seq<Card>, cards: seq<Card>) {
    |again| == |cards| && forall i :: 0 <= i < |cards| ==> SameButWebsite(again[i], cards[i])
  }

  /** What a second validation makes of a settled card. */
  predicate SettledAs(c: Card, again: Checked<Card>) {
    (again.Valid? <==> CardFits(c)) && (again.Valid? ==> SameButWebsite(again.value, c))
  }

  lemma SettledCards(t: Tables, cards: seq<Card>)
    requires forall c :: c in cards ==> Settled(t, c)
    ensures forall i :: 0 <= i < |cards| ==> SettledAs(cards[i], BuiltAgain(t, cards)[i])
  {
    forall i | 0 <= i < |cards|
      ensures SettledAs(cards[i], BuiltAgain(t, cards)[i])
    {
      assert cards[i] in cards;
      SettledCard(t, cards[i]);
    }
  }

  lemma SettledCard(t: Tables, c: Card)
    requires Settled(t, c)
    ensures SettledAs(c, BuildCard(t, c))
  {
  }

  lemma CardsAgain(t: Tables, cards: seq<Card>)
    requires forall c :: c in cards ==> Settled(t, c)
    ensures RevalidateCards(t, cards).Valid? <==> forall c :: c in cards ==> CardFits(c)
    ensures RevalidateCards(t, cards).Valid? ==> SameCards(RevalidateCards(t, cards).value, cards)
  {
    SettledCards(t, cards);
    EachSettled(cards, BuiltAgain(t, cards));
  }

  lemma EachSettled(cards: seq<Card>, again: seq<Checked<Card>>)
    requires |cards| == |again| && forall i :: 0 <= i < |cards| ==> SettledAs(cards[i], again[i])
    ensures AllValid(again).Valid? <==> forall c :: c in cards ==> CardFits(c)
    ensures AllValid(again).Valid? ==> SameCards(AllValid(again).value, cards)
  {
    AllValidExactlyWhen(again);
    if AllValid(again).Valid? {
      forall i | 0 <= i < |cards|
        ensures SameButWebsite(AllValid(again).value[i], cards[i])
      {
        assert SettledAs(cards[i], again[i]);
      }
    } else {
      var i :| 0 <= i < |again| && again[i].Invalid?;
      assert cards[i] in cards && !CardFits(cards[i]);
    }
  }

  lemma {:induction false} BoundedCardsGiveEvidence(cards: seq<Card>)
    requires forall c :: c in cards ==> CardFits(c) && NoBlankText(c)
    ensures forall key :: key in EvidenceOfCards(cards) ==> ValidEvidence(EvidenceOfCards(cards)[key])
  {
    if |cards| != 0 {
      BoundedCardsGiveEvidence(cards[..|cards| - 1]);
      assert cards[|cards| - 1] in cards;
    }
  }

  /** The cards a persisted run reports settle. */
  lemma ReportedCardsSettle(t: Tables, profile: Profile, preview: QueryPreview, s: Store, verdict: Verdict,
                            report: RunReport, after: Store)
    requires t.Lawful() && StagePersisted(t, profile, preview, verdict, s) == Ok((report, after))
    ensures forall c :: c in report.candidates ==> Settled(t, c)
  {
    if verdict.Proceed? {
      var rows := RowsOf(t, profile, verdict.provider, verdict.r);
      RowsOfAreWellFormed(t, profile, verdict.provider, verdict.r);
      CardsOfRowsSettle(t, profile.projectId, rows);
    }
  }

  lemma CleanReportIsKept(report: RunReport, cards: seq<Card>)
    requires ValidRunReport(report) && |cards| == |report.candidates|
    ensures BuildResult(report.(candidates := cards)).Ok?
    ensures BuildResult(report.(candidates := cards)).value.candidates == cards
  {
  }

  /**
   A plan takes over the report of its persisted run exactly when NFKC took no city, industry or snippet over the
   bound it had been checked against before; what it takes over is then fit to be shown to the decision.
   */
  lemma SnapshotExactlyWhenBounded(t: Tables, profile: Profile, raw: Option<string>, preview: QueryPreview,
                                   replies: nat -> Reply, s: Store, verdict: Verdict, report: RunReport, after: Store)
    requires t.Lawful() && RevalidatePreview(t, profile, preview) == Valid(preview)
    requires verdict == Judge(t, profile, raw, preview, replies)
    requires StagePersisted(t, profile, preview, verdict, s) == Ok((report, after))
    ensures SnapshotStaging(t, report).Valid? <==> forall c :: c in report.candidates ==> CardFits(c)
    ensures SnapshotStaging(t, report).Valid? ==>
      var evidence := EvidenceOfCards(SnapshotStaging(t, report).value.candidates);
      forall key :: key in evidence ==> ValidEvidence(evidence[key])
  {
    PersistedReportsAreValid(t, profile, raw, preview, replies, s, verdict, report, after);
    ReportedCardsSettle(t, profile, preview, s, verdict, report, after);
    CardsAgain(t, report.candidates);
    var cards := RevalidateCards(t, report.candidates);
    if cards.Valid? {
      CleanReportIsKept(report, cards.value);
      SameCardsGiveEvidence(cards.value, report.candidates);
    }
  }

  lemma SameCardsGiveEvidence(again: seq<Card>, cards: seq<Card>)
    requires SameCards(again, cards) && forall c :: c in cards ==> CardFits(c) && NoBlankText(c)
    ensures forall key :: key in EvidenceOfCards(again) ==> ValidEvidence(EvidenceOfCards(again)[key])
  {
    forall c | c in again
      ensures CardFits(c) && NoBlankText(c)
    {
      var i :| 0 <= i < |again| && again[i] == c;
      assert cards[i] in cards && SameButWebsite(c, cards[i]);
    }
    BoundedCardsGiveEvidence(again);
  }

  // ----- What the plan makes of it --------------------------------------------------------------------

  /**
   Over a usable run, and with evidence from such a snapshot, a plan fails at its selection exactly when a fetched row
   cannot be described or the request is too large; the evidence is never the reason.
   */
  lemma SelectionFailsExactlyWhen(t: Tables, s: Store, boundary: DecisionBoundary, runId: nat, staged: nat,
                                  data: PlanInput, evidence: map<string, Evidence>)
    requires t.Lawful() && Inv(s) && NormalRows(t, s.candidates) && UsableRun(s, data.projectId, runId, data.goal, 5)
    requires forall key :: key in evidence ==> ValidEvidence(evidence[key])
    ensures var top := Take(5, Eligible(s, data.projectId, runId, data.includePromoted));
      var shown := if data.includePromoted then evidence else map[];
      PlanSelection(s, boundary, runId, staged, data, evidence) == Err(SelectionFailed) <==>
        && Eligible(s, data.projectId, runId, data.includePromoted) != []
        && (!AllDescribable(Fetch(s, data.projectId, runId, 5, data.includePromoted))
            || boundary.size(RequestOf(data.goal, top, shown)) > MAX_REQUEST_BYTES)
  {
    var shown := if data.includePromoted then evidence else map[];
    OutcomeOfSelection(t, s, boundary.size, data.projectId, runId, data.goal, 5, data.includePromoted, shown);
    AlwaysEvidenced(Take(5, Eligible(s, data.projectId, runId, data.includePromoted)), shown);
    var prepared := PrepareSelection(s, boundary.size, data.projectId, runId, data.goal, 5, data.includePromoted,
                                     shown);
    FailsWithItsSelection(s, boundary, runId, staged, data, evidence, prepared);
  }

  lemma AlwaysEvidenced(xs: seq<Listed>, evidence: map<string, Evidence>)
    requires forall key :: key in evidence ==> ValidEvidence(evidence[key])
    ensures AllEvidenced(xs, evidence)
  {
  }

  lemma FailsWithItsSelection(s: Store, boundary: DecisionBoundary, runId: nat, staged: nat, data: PlanInput,
                              evidence: map<string, Evidence>, prepared: Result<SelectionInput, SelectionError>)
    requires prepared == PrepareSelection(s, boundary.size, data.projectId, runId, data.goal, 5, data.includePromoted,
                                          if data.includePromoted then evidence else map[])
    ensures PlanSelection(s, boundary, runId, staged, data, evidence) == Err(SelectionFailed) <==>
      prepared.Err? && prepared.error != NoCandidates
  {
  }
}
