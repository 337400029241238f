/** An enrichment by its provider's report: the value of each field, the refusals, the status, and a batch's counts. */
module EnrichmentOutcomes {
  import opened Common
  import opened Text
  import opened DiscoveryTables
  import opened CompanyEnrichment

  // ----- The values of a report -----------------------------------------------------------------------------

  /** The value a report has for a field: stripped notes that were not empty, or what the normaliser makes of it. */
  function Found(p: Provider, r: Report, f: Field): Option<string> {
    if f !in r.raw then None
    else if f == Notes then if r.raw[Notes] == "" then None else Some(Strip(r.raw[Notes]))
    else match p.normalize(f, r.raw[f])
      case Valid(value) => value
      case Invalid => None
  }

  /** The fields of a report that their normaliser refuses. */
  function RefusedFields(p: Provider, r: Report): set<Field> {
    set f: Field | f in r.raw && f != Notes && p.normalize(f, r.raw[f]).Invalid?
  }

  predicate NoRepeats(fields: seq<Field>) {
    forall i, j :: 0 <= i < j < |fields| ==> fields[i] != fields[j]
  }

  lemma {:induction false} ValuesOfFields(p: Provider, r: Report, fields: seq<Field>, f: Field)
    requires NoRepeats(fields) && Notes !in fields
    ensures Lookup(NormalizedValues(p, r, fields).0, f) == if f in fields || f == Notes then Found(p, r, f) else None
  {
    if |fields| != 0 {
      var n := |fields| - 1;
      assert fields == fields[..n] + [fields[n]];
      ValuesOfFields(p, r, fields[..n], f);
      ValuesOfFields(p, r, fields[..n], fields[n]);
    }
  }

  /** Those of some fields that are refused. */
  function RefusedOf(refused: set<Field>, fields: seq<Field>): set<Field> {
    set f | f in fields && f in refused
  }

  lemma OneMoreRefused(refused: set<Field>, fields: seq<Field>, f: Field)
    requires f !in fields
    ensures |RefusedOf(refused, fields + [f])| == |RefusedOf(refused, fields)| + One(f in refused)
  {
    if f in refused {
      assert RefusedOf(refused, fields + [f]) == RefusedOf(refused, fields) + {f};
    } else {
      assert RefusedOf(refused, fields + [f]) == RefusedOf(refused, fields);
    }
  }

  lemma {:induction false} RefusalsOfFields(p: Provider, r: Report, fields: seq<Field>)
    requires NoRepeats(fields) && Notes !in fields
    ensures NormalizedValues(p, r, fields).1 == |RefusedOf(RefusedFields(p, r), fields)|
  {
    if |fields| == 0 {
      assert RefusedOf(RefusedFields(p, r), []) == {};
    } else {
      var n := |fields| - 1;
      RefusalsOfFields(p, r, fields[..n]);
      OneMoreRefused(RefusedFields(p, r), fields[..n], fields[n]);
      assert fields == fields[..n] + [fields[n]];
    }
  }

  lemma EveryFieldIsNormalized(f: Field)
    ensures f in NORMALIZED_FIELDS <==> f != Notes
    ensures NoRepeats(NORMALIZED_FIELDS)
  {
    assert NORMALIZED_FIELDS[0] == Website && NORMALIZED_FIELDS[1] == Email && NORMALIZED_FIELDS[2] == Phone
        && NORMALIZED_FIELDS[3] == Instagram && NORMALIZED_FIELDS[4] == LinkedIn && NORMALIZED_FIELDS[5] == ContactPage
        && NORMALIZED_FIELDS[6] == AboutPage && NORMALIZED_FIELDS[7] == SourceUrl;
  }

  /** The candidate for a field, and the number of fields refused, as the report has them. */
  lemma CandidatesAreFound(p: Provider, r: Report, f: Field)
    ensures CompanyEnrichment.Candidate(p, Some(r), f) == Found(p, r, f)
    ensures NormalizedValues(p, r, NORMALIZED_FIELDS).1 == |RefusedFields(p, r)|
  {
    forall g: Field
      ensures g in NORMALIZED_FIELDS <==> g != Notes
    {
      EveryFieldIsNormalized(g);
    }
    EveryFieldIsNormalized(f);
    ValuesOfFields(p, r, NORMALIZED_FIELDS, f);
    RefusalsOfFields(p, r, NORMALIZED_FIELDS);
    assert RefusedFields(p, r) == RefusedOf(RefusedFields(p, r), NORMALIZED_FIELDS);
  }

  // ----- What is reported and stored ------------------------------------------------------------------------

  /** A report that found something besides notes. */
  ghost predicate FoundSomething(p: Provider, r: Report) {
    exists f :: f != Notes && Found(p, r, f).Some?
  }

  /**
   The item of a company and the row it leaves, by the report: NOT_FOUND exactly if nothing but notes was found, else
   PARTIAL exactly if there was an error, which is an own one of the report or a field refused; FAILED without a report.
   */
  lemma ItemSays(p: Provider, s: EnrichmentStore, companyId: nat, reply: Option<Report>, overwrite: bool)
    ensures var item := DryItem(p, s, companyId, reply, overwrite);
      && item.companyId == companyId && item.created == (companyId !in s.rows) && item.updated == (companyId in s.rows)
      && !item.untouched
      && (reply.None? <==> item.status == Failed) && (reply.None? ==> item.provider == p.name && item.changed == [])
      && (reply.Some? ==>
          && item.provider == reply.value.provider
          && item.errors == reply.value.errors + |RefusedFields(p, reply.value)|
          && (item.status == NotFound <==> !FoundSomething(p, reply.value))
          && (item.status == Partial <==> FoundSomething(p, reply.value) && item.errors > 0)
          && (item.status == Succeeded <==> FoundSomething(p, reply.value) && item.errors == 0))
    ensures var after := Enriched(p, s, companyId, reply, overwrite);
      var item := DryItem(p, s, companyId, reply, overwrite);
      && companyId in after.rows && after.rows[companyId].status == item.status
      && after.rows[companyId].errors == item.errors
  {
    if reply.Some? {
      var r := reply.value;
      CandidatesAreFound(p, r, Website);
      var values := NormalizedValues(p, r, NORMALIZED_FIELDS).0;
      forall f: Field
        ensures f in values <==> Found(p, r, f).Some?
      {
        CandidatesAreFound(p, r, f);
      }
    }
  }

  /**
   The value of every field after a persisted enrichment: what the report has for it, if it has something and the field
   was empty or may be overwritten, and what it was otherwise; of other companies nothing changes.
   */
  lemma ValuesStored(p: Provider, s: EnrichmentStore, companyId: nat, reply: Option<Report>, overwrite: bool,
                     other: nat, f: Field)
    ensures var found := if reply.Some? then Found(p, reply.value, f) else None;
      ValueOf(Enriched(p, s, companyId, reply, overwrite), companyId, f) ==
      if found.Some? && (overwrite || ValueOf(s, companyId, f).None?) then found else ValueOf(s, companyId, f)
    ensures other != companyId ==>
      ValueOf(Enriched(p, s, companyId, reply, overwrite), other, f) == ValueOf(s, other, f)
  {
    EnrichedValues(p, s, companyId, reply, overwrite, companyId, f);
    EnrichedValues(p, s, companyId, reply, overwrite, other, f);
    if reply.Some? {
      CandidatesAreFound(p, reply.value, f);
    }
  }

  // ----- A batch --------------------------------------------------------------------------------------------

  function Where(items: seq<Item>, holds: Item -> bool): set<nat> {
    set i: nat | i < |items| && holds(items[i])
  }

  lemma {:induction false} CountedWhere(items: seq<Item>, holds: Item -> bool)
    ensures CountIf(items, holds) == |Where(items, holds)|
  {
    if |items| != 0 {
      var n := |items| - 1;
      CountedWhere(items[..n], holds);
      if holds(items[n]) {
        assert Where(items, holds) == Where(items[..n], holds) + {n};
      } else {
        assert Where(items, holds) == Where(items[..n], holds);
      }
    }
  }

  /** The items of a batch are those of its companies, in order, each enriched after the ones before it. */
  lemma {:induction false} ItemsFollowCompanies(p: Provider, s: EnrichmentStore, companies: seq<nat>,
                                                replies: nat -> Option<Report>, dryRun: bool, overwrite: bool, i: nat)
    requires i < |companies|
    ensures var items := EnrichAll(p, s, companies, replies, dryRun, overwrite).1;
      && |items| == |companies| && items[i].companyId == companies[i]
      && items[i] == DryItem(p, EnrichAll(p, s, companies[..i], replies, dryRun, overwrite).0, companies[i],
                             replies(companies[i]), overwrite)
  {
    var n := |companies| - 1;
    OneItemEach(p, s, companies, replies, dryRun, overwrite);
    OneItemEach(p, s, companies[..n], replies, dryRun, overwrite);
    if i < n {
      ItemsFollowCompanies(p, s, companies[..n], replies, dryRun, overwrite, i);
      assert companies[..n][..i] == companies[..i];
    }
  }

  lemma {:induction false} OneItemEach(p: Provider, s: EnrichmentStore, companies: seq<nat>,
                                       replies: nat -> Option<Report>, dryRun: bool, overwrite: bool)
    ensures |EnrichAll(p, s, companies, replies, dryRun, overwrite).1| == |companies|
  {
    if |companies| != 0 {
      OneItemEach(p, s, companies[..|companies| - 1], replies, dryRun, overwrite);
    }
  }

  /** A batch counts its items: how many were created, updated or left alone, and how many ended in each status. */
  lemma BatchCounts(p: Provider, matched: nat, items: seq<Item>, dryRun: bool, b: Batch)
    requires CheckBatch(Aggregate(p, matched, items, dryRun)) == Valid(b)
    ensures b.items == items && b.matched == matched && b.selected == b.attempted == |items| && b.dryRun == dryRun
    ensures b.created == |Where(items, (x: Item) => x.created)| && b.updated == |Where(items, (x: Item) => x.updated)|
      && b.untouched == |Where(items, (x: Item) => x.untouched)|
    ensures b.succeeded == |Where(items, (x: Item) => x.status == Succeeded)|
      && b.partials == |Where(items, (x: Item) => x.status == Partial)|
      && b.notFound == |Where(items, (x: Item) => x.status == NotFound)|
      && b.failed == |Where(items, (x: Item) => x.status == Failed)|
  {
    CountedWhere(items, (x: Item) => x.created);
    CountedWhere(items, (x: Item) => x.updated);
    CountedWhere(items, (x: Item) => x.untouched);
    CountedWhere(items, (x: Item) => x.status == Succeeded);
    CountedWhere(items, (x: Item) => x.status == Partial);
    CountedWhere(items, (x: Item) => x.status == NotFound);
    CountedWhere(items, (x: Item) => x.status == Failed);
  }
}
