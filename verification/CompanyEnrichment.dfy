/** Enriching companies from a provider: what a run would change, and what it does change. */
module CompanyEnrichment {
  import opened Common
  import opened Text
  import opened DiscoveryTables

  datatype Field = Website | Email | Phone | Instagram | LinkedIn | ContactPage | AboutPage | SourceUrl | Notes

  /** The columns of an enrichment row, in the order they are looked at. */
  const ENRICHMENT_FIELDS := [Email, Phone, Instagram, LinkedIn, ContactPage, AboutPage, SourceUrl, Notes]

  /** The fields that go through a normaliser, in order. */
  const NORMALIZED_FIELDS := [Website, Email, Phone, Instagram, LinkedIn, ContactPage, AboutPage, SourceUrl]

  datatype EnrichmentRow = EnrichmentRow(status: RunStatus, errors: nat, values: map<Field, string>)

  datatype EnrichmentStore = EnrichmentStore(websites: map<nat, string>, rows: map<nat, EnrichmentRow>)

  /** What a provider reports; each field may be missing. */
  datatype Report = Report(provider: string, raw: map<Field, string>, errors: nat)

  /** A provider's name, and the normalisers its values go through. */
  datatype Provider = Provider(name: string, normalize: (Field, string) -> Checked<Option<string>>)

  datatype Item = Item(
    companyId: nat, provider: string, status: RunStatus, created: bool, updated: bool, untouched: bool,
    changed: seq<Field>, errors: nat)

  function Lookup(values: map<Field, string>, f: Field): Option<string> {
    if f in values then Some(values[f]) else None
  }

  function Assign(values: map<Field, string>, f: Field, value: Option<string>): map<Field, string> {
    if value.Some? then values[f := value.value] else values
  }

  // ----- The values of a report ----------------------------------------------------------------------------

  /** Notes are only stripped; blank but present notes stay present. */
  function NotesValue(r: Report): Option<string> {
    if Notes in r.raw && r.raw[Notes] != "" then Some(Strip(r.raw[Notes])) else None
  }

  function NormalizedField(p: Provider, r: Report, f: Field): Checked<Option<string>> {
    if f in r.raw then p.normalize(f, r.raw[f]) else Valid(None)
  }

  /** The normalised values of the fields and the number of those that were refused. */
  function NormalizedValues(p: Provider, r: Report, fields: seq<Field>): (map<Field, string>, nat) {
    if |fields| == 0 then (Assign(map[], Notes, NotesValue(r)), 0)
    else
      var (values, errors) := NormalizedValues(p, r, fields[..|fields| - 1]);
      var f := fields[|fields| - 1];
      match NormalizedField(p, r, f)
      case Invalid => (values, errors + 1)
      case Valid(value) => (Assign(values, f, value), errors)
  }

  /** The value of a field of the company: its website, or a column of its enrichment row. */
  function ValueOf(s: EnrichmentStore, companyId: nat, f: Field): Option<string> {
    if f == Website then if companyId in s.websites then Some(s.websites[companyId]) else None
    else if companyId in s.rows then Lookup(s.rows[companyId].values, f) else None
  }

  /** A candidate is taken when the field is empty or may be overwritten. */
  predicate Takes(candidate: Option<string>, current: Option<string>, overwrite: bool) {
    candidate.Some? && (current.None? || overwrite)
  }

  predicate Changes(candidate: Option<string>, current: Option<string>, overwrite: bool) {
    Takes(candidate, current, overwrite) && current != candidate
  }

  function ChangedColumns(s: EnrichmentStore, companyId: nat, values: map<Field, string>, overwrite: bool,
                          fields: seq<Field>): seq<Field>
  {
    if |fields| == 0 then []
    else
      var f := fields[|fields| - 1];
      ChangedColumns(s, companyId, values, overwrite, fields[..|fields| - 1])
      + if Changes(Lookup(values, f), ValueOf(s, companyId, f), overwrite) then [f] else []
  }

  function ChangedFields(s: EnrichmentStore, companyId: nat, values: map<Field, string>, overwrite: bool): seq<Field> {
    (if Changes(Lookup(values, Website), ValueOf(s, companyId, Website), overwrite) then [Website] else [])
    + ChangedColumns(s, companyId, values, overwrite, ENRICHMENT_FIELDS)
  }

  function TakenColumns(current: map<Field, string>, values: map<Field, string>, overwrite: bool, fields: seq<Field>):
    map<Field, string>
  {
    if |fields| == 0 then current
    else
      var f := fields[|fields| - 1];
      var before := TakenColumns(current, values, overwrite, fields[..|fields| - 1]);
      if Takes(Lookup(values, f), Lookup(current, f), overwrite) then Assign(before, f, Lookup(values, f)) else before
  }

  /** Whether anything but notes was found. */
  predicate Useful(values: map<Field, string>) {
    exists f :: f in values && f != Notes
  }

  function StatusOf(values: map<Field, string>, errors: nat): RunStatus {
    if Useful(values) then if errors > 0 then Partial else Succeeded else NotFound
  }

  // ----- One company -----------------------------------------------------------------------------------------

  function FailedItem(p: Provider, companyId: nat, created: bool): Item {
    Item(companyId, p.name, Failed, created, !created, false, [], 1)
  }

  function DryItem(p: Provider, s: EnrichmentStore, companyId: nat, reply: Option<Report>, overwrite: bool): Item {
    match reply
    case None => FailedItem(p, companyId, companyId !in s.rows)
    case Some(r) =>
      var (values, refused) := NormalizedValues(p, r, NORMALIZED_FIELDS);
      Item(companyId, r.provider, StatusOf(values, r.errors + refused), companyId !in s.rows, companyId in s.rows,
           false, ChangedFields(s, companyId, values, overwrite), r.errors + refused)
  }

  function RowOf(s: EnrichmentStore, companyId: nat): EnrichmentRow {
    if companyId in s.rows then s.rows[companyId] else EnrichmentRow(Pending, 0, map[])
  }

  /** The tables after a persisted enrichment. */
  function Enriched(p: Provider, s: EnrichmentStore, companyId: nat, reply: Option<Report>, overwrite: bool):
    EnrichmentStore
  {
    var row := RowOf(s, companyId);
    match reply
    case None => s.(rows := s.rows[companyId := row.(status := Failed, errors := 1)])
    case Some(r) =>
      var (values, refused) := NormalizedValues(p, r, NORMALIZED_FIELDS);
      var website := Lookup(values, Website);
      EnrichmentStore(
        if Takes(website, ValueOf(s, companyId, Website), overwrite) then s.websites[companyId := website.value]
        else s.websites,
        s.rows[companyId := EnrichmentRow(StatusOf(values, r.errors + refused), r.errors + refused,
                                          TakenColumns(row.values, values, overwrite, ENRICHMENT_FIELDS))])
  }

  class EnrichmentSession {
    var websites: map<nat, string>
    var rows: map<nat, EnrichmentRow>

    constructor (s: EnrichmentStore)
      ensures View() == s
    {
      websites, rows := s.websites, s.rows;
    }

    function View(): EnrichmentStore
      reads this
    {
      EnrichmentStore(websites, rows)
    }
  }

  class CompanyEnrichmentService {
    const session: EnrichmentSession

    constructor (session: EnrichmentSession)
      ensures this.session == session
    {
      this.session := session;
    }

    method EnrichCompany(p: Provider, companyId: nat, reply: Option<Report>, dryRun: bool, overwrite: bool)
      returns (item: Item)
      modifies if dryRun then {} else {session}
      ensures item == DryItem(p, old(session.View()), companyId, reply, overwrite)
      ensures session.View() == if dryRun then old(session.View())
                                else Enriched(p, old(session.View()), companyId, reply, overwrite)
    {
      if reply.None? {
        item := HandleFailure(p, companyId, dryRun);
        return;
      }
      var r := reply.value;
      var values, refused := CollectValues(p, r);
      var errors := r.errors + refused;
      var status := StatusOf(values, errors);
      var changed := CollectChanges(companyId, values, overwrite);
      var created := companyId !in session.rows;
      item := Item(companyId, r.provider, status, created, !created, false, changed, errors);
      if !dryRun {
        Persist(companyId, values, status, errors, overwrite);
      }
    }

    method HandleFailure(p: Provider, companyId: nat, dryRun: bool) returns (item: Item)
      modifies if dryRun then {} else {session}
      ensures item == FailedItem(p, companyId, companyId !in old(session.rows))
      ensures session.View() == if dryRun then old(session.View())
                                else Enriched(p, old(session.View()), companyId, None, false)
    {
      var created := companyId !in session.rows;
      if !dryRun {
        if created {
          session.rows := session.rows[companyId := EnrichmentRow(Pending, 0, map[])];
        }
        var row := session.rows[companyId];
        row := row.(status := Failed);
        row := row.(errors := 1);
        session.rows := session.rows[companyId := row];
      }
      item := FailedItem(p, companyId, created);
    }

    method CollectValues(p: Provider, r: Report) returns (values: map<Field, string>, refused: nat)
      ensures (values, refused) == NormalizedValues(p, r, NORMALIZED_FIELDS)
    {
      values, refused := Assign(map[], Notes, NotesValue(r)), 0;
      var fields := NORMALIZED_FIELDS;
      for i := 0 to |fields|
        invariant (values, refused) == NormalizedValues(p, r, fields[..i])
      {
        assert fields[..i + 1][..i] == fields[..i];
        var normalized := NormalizedField(p, r, fields[i]);
        if normalized.Invalid? {
          refused := refused + 1;
        } else {
          values := Assign(values, fields[i], normalized.value);
        }
      }
      assert fields[..|fields|] == fields;
    }

    method CollectChanges(companyId: nat, values: map<Field, string>, overwrite: bool) returns (changed: seq<Field>)
      ensures changed == ChangedFields(session.View(), companyId, values, overwrite)
    {
      changed := [];
      if Changes(Lookup(values, Website), ValueOf(session.View(), companyId, Website), overwrite) {
        changed := [Website];
      }
      ghost var website := changed;
      var fields := ENRICHMENT_FIELDS;
      for i := 0 to |fields|
        invariant changed == website + ChangedColumns(session.View(), companyId, values, overwrite, fields[..i])
      {
        assert fields[..i + 1][..i] == fields[..i];
        if Changes(Lookup(values, fields[i]), ValueOf(session.View(), companyId, fields[i]), overwrite) {
          changed := changed + [fields[i]];
        }
      }
      assert fields[..|fields|] == fields;
    }

    method Persist(companyId: nat, values: map<Field, string>, status: RunStatus, errors: nat, overwrite: bool)
      modifies session
      ensures var s := old(session.View());
        var website := Lookup(values, Website);
        var columns := TakenColumns(RowOf(s, companyId).values, values, overwrite, ENRICHMENT_FIELDS);
        session.View() == EnrichmentStore(
          if Takes(website, ValueOf(s, companyId, Website), overwrite) then s.websites[companyId := website.value]
          else s.websites,
          s.rows[companyId := EnrichmentRow(status, errors, columns)])
    {
      ghost var s := session.View();
      if companyId !in session.rows {
        session.rows := session.rows[companyId := EnrichmentRow(Pending, 0, map[])];
      }
      if Website in values && (companyId !in session.websites || overwrite) {
        session.websites := session.websites[companyId := values[Website]];
      }
      var current := session.rows[companyId].values;
      var columns := current;
      var fields := ENRICHMENT_FIELDS;
      for i := 0 to |fields|
        invariant columns == TakenColumns(current, values, overwrite, fields[..i])
      {
        assert fields[..i + 1][..i] == fields[..i];
        if Takes(Lookup(values, fields[i]), Lookup(current, fields[i]), overwrite) {
          columns := columns[fields[i] := values[fields[i]]];
        }
      }
      assert fields[..|fields|] == fields;
      session.rows := session.rows[companyId := EnrichmentRow(status, errors, columns)];
      assert session.rows == s.rows[companyId := EnrichmentRow(status, errors, columns)];
    }

    method EnrichProjectCompanies(p: Provider, matched: nat, companies: seq<nat>, replies: nat -> Option<Report>,
                                  limit: nat, dryRun: bool, overwrite: bool) returns (r: Checked<Batch>)
      modifies if dryRun then {} else {session}
      ensures limit < 1 || limit > 100 ==> r == Invalid && session.View() == old(session.View())
      ensures 1 <= limit <= 100 ==>
        var (after, items) := EnrichAll(p, old(session.View()), companies, replies, dryRun, overwrite);
        session.View() == after && r == CheckBatch(Aggregate(p, matched, items, dryRun))
    {
      if limit < 1 || limit > 100 {
        return Invalid;
      }
      ghost var s := session.View();
      var items: seq<Item> := [];
      for i := 0 to |companies|
        invariant (session.View(), items) == EnrichAll(p, s, companies[..i], replies, dryRun, overwrite)
      {
        assert companies[..i + 1][..i] == companies[..i];
        var item := EnrichCompany(p, companies[i], replies(companies[i]), dryRun, overwrite);
        items := items + [item];
      }
      assert companies[..|companies|] == companies;
      r := CheckBatch(Aggregate(p, matched, items, dryRun));
    }
  }

  // ----- A batch ---------------------------------------------------------------------------------------------------

  datatype Batch = Batch(
    provider: string, matched: nat, selected: nat, attempted: nat, created: nat, updated: nat, untouched: nat,
    succeeded: nat, partials: nat, notFound: nat, failed: nat, dryRun: bool, items: seq<Item>)

  function CountIf(items: seq<Item>, holds: Item -> bool): nat {
    if |items| == 0 then 0 else CountIf(items[..|items| - 1], holds) + if holds(items[|items| - 1]) then 1 else 0
  }

  function Aggregate(p: Provider, matched: nat, items: seq<Item>, dryRun: bool): Batch {
    Batch(p.name, matched, |items|, |items|,
          CountIf(items, (x: Item) => x.created), CountIf(items, (x: Item) => x.updated),
          CountIf(items, (x: Item) => x.untouched),
          CountIf(items, (x: Item) => x.status == Succeeded), CountIf(items, (x: Item) => x.status == Partial),
          CountIf(items, (x: Item) => x.status == NotFound), CountIf(items, (x: Item) => x.status == Failed), dryRun,
          items)
  }

  /** The rules a batch result must meet. */
  predicate ValidBatch(b: Batch) {
    && b.selected <= b.matched && b.selected == |b.items| && b.attempted == |b.items|
    && b.created + b.updated + b.untouched == b.attempted
    && b.succeeded + b.partials + b.notFound + b.failed == b.attempted
  }

  function CheckBatch(b: Batch): Checked<Batch> {
    if ValidBatch(b) then Valid(b) else Invalid
  }

  /** The companies one after the other: the tables in between and the items so far. */
  function EnrichAll(p: Provider, s: EnrichmentStore, companies: seq<nat>, replies: nat -> Option<Report>, dryRun: bool,
                     overwrite: bool):
    (EnrichmentStore, seq<Item>)
  {
    if |companies| == 0 then (s, [])
    else
      var (before, items) := EnrichAll(p, s, companies[..|companies| - 1], replies, dryRun, overwrite);
      var companyId := companies[|companies| - 1];
      var reply := replies(companyId);
      (if dryRun then before else Enriched(p, before, companyId, reply, overwrite),
       items + [DryItem(p, before, companyId, reply, overwrite)])
  }

  // ----- What an enrichment guarantees -------------------------------------------------------------------------------

  lemma {:induction false} ColumnsTaken(current: map<Field, string>, values: map<Field, string>, overwrite: bool,
                                        fields: seq<Field>, f: Field)
    ensures Lookup(TakenColumns(current, values, overwrite, fields), f) ==
      if f in fields && Takes(Lookup(values, f), Lookup(current, f), overwrite) then Lookup(values, f)
      else Lookup(current, f)
  {
    if |fields| != 0 {
      ColumnsTaken(current, values, overwrite, fields[..|fields| - 1], f);
      assert fields == fields[..|fields| - 1] + [fields[|fields| - 1]];
    }
  }

  lemma {:induction false} ColumnsChanged(s: EnrichmentStore, companyId: nat, values: map<Field, string>,
                                          overwrite: bool, fields: seq<Field>, f: Field)
    ensures f in ChangedColumns(s, companyId, values, overwrite, fields) <==>
      f in fields && Changes(Lookup(values, f), ValueOf(s, companyId, f), overwrite)
  {
    if |fields| != 0 {
      ColumnsChanged(s, companyId, values, overwrite, fields[..|fields| - 1], f);
      assert fields == fields[..|fields| - 1] + [fields[|fields| - 1]];
    }
  }

  lemma EveryColumnIsLookedAt(f: Field)
    ensures f in ENRICHMENT_FIELDS <==> f != Website
  {
    assert ENRICHMENT_FIELDS[0] == Email && ENRICHMENT_FIELDS[1] == Phone && ENRICHMENT_FIELDS[2] == Instagram
        && ENRICHMENT_FIELDS[3] == LinkedIn && ENRICHMENT_FIELDS[4] == ContactPage && ENRICHMENT_FIELDS[5] == AboutPage
        && ENRICHMENT_FIELDS[6] == SourceUrl && ENRICHMENT_FIELDS[7] == Notes;
  }

  /** The candidate an enrichment has for a field. */
  function Candidate(p: Provider, reply: Option<Report>, f: Field): Option<string> {
    match reply
    case None => None
    case Some(r) => Lookup(NormalizedValues(p, r, NORMALIZED_FIELDS).0, f)
  }

  /** An enrichment gives each field its candidate if it takes it, and leaves every other field and company alone. */
  lemma EnrichedValues(p: Provider, s: EnrichmentStore, companyId: nat, reply: Option<Report>, overwrite: bool,
                       other: nat, f: Field)
    ensures var after := Enriched(p, s, companyId, reply, overwrite);
      ValueOf(after, other, f) ==
        if other == companyId
          && Takes(Candidate(p, reply, f), ValueOf(s, companyId, f), overwrite) then Candidate(p, reply, f)
        else ValueOf(s, other, f)
    ensures other != companyId ==>
      (other in Enriched(p, s, companyId, reply, overwrite).rows <==> other in s.rows)
  {
    if reply.Some? {
      var values := NormalizedValues(p, reply.value, NORMALIZED_FIELDS).0;
      ColumnsTaken(RowOf(s, companyId).values, values, overwrite, ENRICHMENT_FIELDS, f);
      EveryColumnIsLookedAt(f);
    }
  }

  /**
   The changed fields an item lists, in a dry run or not, are exactly those whose value differs after the
   persisted run.
   */
  lemma ChangedFieldsAreExact(p: Provider, s: EnrichmentStore, companyId: nat, reply: Option<Report>, overwrite: bool,
                              f: Field)
    ensures f in DryItem(p, s, companyId, reply, overwrite).changed <==>
      ValueOf(Enriched(p, s, companyId, reply, overwrite), companyId, f) != ValueOf(s, companyId, f)
  {
    EnrichedValues(p, s, companyId, reply, overwrite, companyId, f);
    if reply.Some? {
      ColumnsChanged(s, companyId, NormalizedValues(p, reply.value, NORMALIZED_FIELDS).0, overwrite, ENRICHMENT_FIELDS,
                     f);
      EveryColumnIsLookedAt(f);
    }
  }

  /** Without overwrite no value that is there is changed. */
  lemma NothingIsOverwritten(p: Provider, s: EnrichmentStore, companyId: nat, reply: Option<Report>, other: nat,
                             f: Field)
    requires ValueOf(s, other, f).Some?
    ensures ValueOf(Enriched(p, s, companyId, reply, false), other, f) == ValueOf(s, other, f)
  {
    EnrichedValues(p, s, companyId, reply, false, other, f);
  }

  /** A repeat with the same reply lists no changed field and changes no value. */
  lemma RepeatChangesNothing(p: Provider, s: EnrichmentStore, companyId: nat, reply: Option<Report>, overwrite: bool,
                             f: Field)
    ensures var after := Enriched(p, s, companyId, reply, overwrite);
      && f !in DryItem(p, after, companyId, reply, overwrite).changed
      && ValueOf(Enriched(p, after, companyId, reply, overwrite), companyId, f) == ValueOf(after, companyId, f)
  {
    var after := Enriched(p, s, companyId, reply, overwrite);
    EnrichedValues(p, s, companyId, reply, overwrite, companyId, f);
    EnrichedValues(p, after, companyId, reply, overwrite, companyId, f);
    ChangedFieldsAreExact(p, after, companyId, reply, overwrite, f);
  }

  /** The items of companies that were not yet reached do not depend on those that were. */
  lemma OtherItemsStay(p: Provider, s: EnrichmentStore, companyId: nat, reply: Option<Report>, overwrite: bool,
                       other: nat, otherReply: Option<Report>)
    requires other != companyId
    ensures DryItem(p, Enriched(p, s, companyId, reply, overwrite), other, otherReply, overwrite)
      == DryItem(p, s, other, otherReply, overwrite)
  {
    var after := Enriched(p, s, companyId, reply, overwrite);
    EnrichedValues(p, s, companyId, reply, overwrite, other, Website);
    if otherReply.Some? {
      var values := NormalizedValues(p, otherReply.value, NORMALIZED_FIELDS).0;
      SameColumns(s, after, other, values, overwrite, ENRICHMENT_FIELDS);
    }
  }

  lemma {:induction false} SameColumns(s: EnrichmentStore, after: EnrichmentStore, companyId: nat,
                                       values: map<Field, string>, overwrite: bool, fields: seq<Field>)
    requires companyId in s.rows <==> companyId in after.rows
    requires companyId in s.rows ==> after.rows[companyId] == s.rows[companyId]
    requires companyId in s.websites <==> companyId in after.websites
    requires companyId in s.websites ==> after.websites[companyId] == s.websites[companyId]
    ensures ChangedColumns(after, companyId, values, overwrite, fields)
      == ChangedColumns(s, companyId, values, overwrite, fields)
  {
    if |fields| != 0 {
      SameColumns(s, after, companyId, values, overwrite, fields[..|fields| - 1]);
    }
  }

  lemma {:induction false} LaterItemsStay(p: Provider, s: EnrichmentStore, companies: seq<nat>,
                                          replies: nat -> Option<Report>, overwrite: bool, other: nat)
    requires other !in companies
    ensures DryItem(p, EnrichAll(p, s, companies, replies, false, overwrite).0, other, replies(other), overwrite)
         == DryItem(p, s, other, replies(other), overwrite)
  {
    if |companies| != 0 {
      var last := companies[|companies| - 1];
      assert last in companies;
      LaterItemsStay(p, s, companies[..|companies| - 1], replies, overwrite, other);
      OtherItemsStay(p, EnrichAll(p, s, companies[..|companies| - 1], replies, false, overwrite).0, last, replies(last),
                     overwrite, other, replies(other));
    }
  }

  lemma {:induction false} DryRunsKeepTheTables(p: Provider, s: EnrichmentStore, companies: seq<nat>,
                                                replies: nat -> Option<Report>, overwrite: bool)
    ensures EnrichAll(p, s, companies, replies, true, overwrite).0 == s
  {
    if |companies| != 0 {
      DryRunsKeepTheTables(p, s, companies[..|companies| - 1], replies, overwrite);
    }
  }

  /** A dry batch reports, company by company, exactly what the persisted batch will report. */
  lemma {:induction false} DryBatchPredictsPersisted(p: Provider, s: EnrichmentStore, companies: seq<nat>,
                                                     replies: nat -> Option<Report>, overwrite: bool)
    requires forall i, j :: 0 <= i < j < |companies| ==> companies[i] != companies[j]
    ensures EnrichAll(p, s, companies, replies, true, overwrite).1
      == EnrichAll(p, s, companies, replies, false, overwrite).1
  {
    if |companies| != 0 {
      var front, last := companies[..|companies| - 1], companies[|companies| - 1];
      DryBatchPredictsPersisted(p, s, front, replies, overwrite);
      DryRunsKeepTheTables(p, s, front, replies, overwrite);
      LaterItemsStay(p, s, front, replies, overwrite, last);
    }
  }

  predicate WellCounted(x: Item) {
    x.created == !x.updated && !x.untouched && x.status in {Succeeded, Partial, NotFound, Failed}
  }

  lemma {:induction false} CountsPartition(items: seq<Item>)
    requires forall x :: x in items ==> WellCounted(x)
    ensures CountIf(items, (x: Item) => x.created) + CountIf(items, (x: Item) => x.updated) == |items|
    ensures CountIf(items, (x: Item) => x.untouched) == 0
    ensures CountIf(items, (x: Item) => x.status == Succeeded) + CountIf(items, (x: Item) => x.status == Partial)
          + CountIf(items, (x: Item) => x.status == NotFound) + CountIf(items, (x: Item) => x.status == Failed)
            == |items|
  {
    if |items| != 0 {
      CountsPartition(items[..|items| - 1]);
      assert WellCounted(items[|items| - 1]);
    }
  }

  lemma {:induction false} ItemsAreWellCounted(p: Provider, s: EnrichmentStore, companies: seq<nat>,
                                               replies: nat -> Option<Report>, dryRun: bool, overwrite: bool)
    ensures var items := EnrichAll(p, s, companies, replies, dryRun, overwrite).1;
      |items| == |companies| && forall x :: x in items ==> WellCounted(x)
  {
    if |companies| != 0 {
      ItemsAreWellCounted(p, s, companies[..|companies| - 1], replies, dryRun, overwrite);
    }
  }

  /** A batch result meets its rules whenever no more companies were selected than matched. */
  lemma BatchesAreValid(p: Provider, s: EnrichmentStore, companies: seq<nat>, replies: nat -> Option<Report>,
                        dryRun: bool, overwrite: bool, matched: nat)
    ensures ValidBatch(Aggregate(p, matched, EnrichAll(p, s, companies, replies, dryRun, overwrite).1, dryRun))
      <==> |companies| <= matched
  {
    ItemsAreWellCounted(p, s, companies, replies, dryRun, overwrite);
    CountsPartition(EnrichAll(p, s, companies, replies, dryRun, overwrite).1);
  }
}
