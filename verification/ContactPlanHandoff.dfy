/**
 The handoff between a contact plan and its apply: the proposals, the fields a token binds, and when the token
 recomputed at apply time is the one the plan gave out.
 */
module ContactPlanHandoff {
  import opened Common
  import opened Text

  // ----- Contact-plan texts --------------------------------------------------------------------------------

  /** An optional text with its whitespace collapsed, a blank one counting as missing. */
  function ContactText(value: Option<string>): Option<string> {
    if value.None? || Collapse(value.value) == "" then None else Some(Collapse(value.value))
  }

  /** A text cut to a bound, without the blank the cut may leave at its end. */
  function BoundedText(value: string, maximum: nat): string {
    if |value| <= maximum then value else RStrip(value[..maximum])
  }

  // The fixed sentences, in two parts; they are written with single blanks, so collapsing them changes nothing.

  const LEAD_TITLE := Fixed("Bohemia", " Bali partnership \U{2014}")
  const TASK_TITLE := Fixed("Review", " and prepare outreach to")
  const ACTION := Fixed("Next", " operator action: review and" + " prepare personalized outreach to")
  const WITH_TITLE := Fixed("with", " title")
  const AT := Fixed("at", "")
  const CONTEXT := Fixed(
    ".", " The resulting Task is the" + " actionable follow-up for the" + " resulting Lead. Use the selected"
    + " Contact, Company, and Agent goal" + " as authoritative context. Goal:")
  const LEGACY_ACTION := Fixed(
    "A", " human must verify this contact" + " before any action. No outreach" + " has been sent, and no Lead or"
    + " Task has been created." + " Selected person:")
  const LEGACY_COMPANY := Fixed(".", " Company:")
  const LEGACY_GOAL := Fixed(".", " Prepare a personalized Bohemia Bali partnership message. Goal:")

  function Fixed(word: string, rest: string): string {
    Collapse(word + rest)
  }

  datatype Proposals = Proposals(leadTitle: string, taskTitle: string, taskDescription: string)

  function Titled(name: string, title: Option<string>): string {
    if title.Some? then name + " " + (WITH_TITLE + " " + title.value) else name
  }

  function BuildProposals(company: string, name: string, title: Option<string>, goal: string): Proposals {
    Proposals(
      BoundedText(LEAD_TITLE + " " + company, 255),
      BoundedText(TASK_TITLE + " " + name, 255),
      BoundedText(ACTION + " " + (Titled(name, title) + " " + (AT + " " + (company + (CONTEXT + " " + goal)))), 4000))
  }

  /** The description tasks had before the operator action was put first. */
  function LegacyDescription(company: string, name: string, title: Option<string>, goal: string): string {
    BoundedText(LEGACY_ACTION + " "
                + (Titled(name, title) + (LEGACY_COMPANY + " " + (company + (LEGACY_GOAL + " " + goal)))), 4000)
  }

  predicate CleanText(s: string) {
    s != "" && IsNormal(s)
  }

  lemma FixedIsClean(word: string, rest: string)
    requires word != "" && !IsSpace(word[0])
    ensures CleanText(Fixed(word, rest)) && Fixed(word, rest)[0] == word[0]
  {
    var s := word + rest;
    assert s[0] == word[0];
    CollapseIsNormal(s);
    CollapseKeepsFirst(s);
  }

  lemma FixedTextsAreClean()
    ensures CleanText(LEAD_TITLE) && CleanText(TASK_TITLE) && CleanText(WITH_TITLE) && CleanText(AT)
      && CleanText(CONTEXT)
    ensures CleanText(LEGACY_COMPANY) && CleanText(LEGACY_GOAL)
    ensures CleanText(ACTION) && ACTION[0] == 'N'
    ensures CleanText(LEGACY_ACTION) && LEGACY_ACTION[0] == 'A'
  {
    FixedIsClean("Bohemia", " Bali partnership \U{2014}");
    FixedIsClean("Review", " and prepare outreach to");
    FixedIsClean("Next", " operator action: review and" + " prepare personalized outreach to");
    FixedIsClean("with", " title");
    FixedIsClean("at", "");
    FixedIsClean(".",
      " The resulting Task is the" + " actionable follow-up for the" + " resulting Lead. Use the selected"
      + " Contact, Company, and Agent goal" + " as authoritative context. Goal:");
    FixedIsClean("A",
      " human must verify this contact" + " before any action. No outreach" + " has been sent, and no Lead or"
      + " Task has been created." + " Selected person:");
    FixedIsClean(".", " Company:");
    FixedIsClean(".", " Prepare a personalized Bohemia Bali partnership message. Goal:");
  }

  lemma CollapseKeepsFirst(s: string)
    requires s != "" && !IsSpace(s[0])
    ensures Collapse(s) != "" && Collapse(s)[0] == s[0]
  {
    var n := WordEnd(s);
    assert n > 0 && Words(s)[0] == s[..n];
    CollapseKeepsCharacters(s);
  }

  lemma Spaced(a: string, b: string)
    requires CleanText(a) && CleanText(b)
    ensures CleanText(a + " " + b) && CleanText(a + b)
    ensures (a + " " + b)[0] == a[0] && (a + b)[0] == a[0]
  {
    NormalConcat(a, b);
  }

  lemma BoundedStaysClean(s: string, maximum: nat)
    requires CleanText(s) && maximum > 0
    ensures CleanText(BoundedText(s, maximum)) && |BoundedText(s, maximum)| <= maximum
      && BoundedText(s, maximum)[0] == s[0]
  {
    if |s| > maximum {
      TruncationStaysNormal(s, maximum);
    }
  }

  lemma TitledIsClean(withTitle: string, name: string, title: Option<string>)
    requires CleanText(withTitle) && CleanText(name) && (title.Some? ==> CleanText(title.value))
    ensures title.Some? ==> CleanText(name + " " + (withTitle + " " + title.value))
  {
    if title.Some? {
      Spaced(withTitle, title.value);
      Spaced(name, withTitle + " " + title.value);
    }
  }

  lemma DescriptionIsClean(action: string, titled: string, at: string, company: string, context: string, goal: string)
    requires CleanText(action) && CleanText(titled) && CleanText(at) && CleanText(company) && CleanText(context)
      && CleanText(goal)
    ensures var s := action + " " + (titled + " " + (at + " " + (company + (context + " " + goal))));
      CleanText(s) && s[0] == action[0]
  {
    Spaced(context, goal);
    Spaced(company, context + " " + goal);
    Spaced(at, company + (context + " " + goal));
    Spaced(titled, at + " " + (company + (context + " " + goal)));
    Spaced(action, titled + " " + (at + " " + (company + (context + " " + goal))));
  }

  lemma LegacyIsClean(action: string, titled: string, at: string, company: string, context: string, goal: string)
    requires CleanText(action) && CleanText(titled) && CleanText(at) && CleanText(company) && CleanText(context)
      && CleanText(goal)
    ensures var s := action + " " + (titled + (at + " " + (company + (context + " " + goal))));
      CleanText(s) && s[0] == action[0]
  {
    Spaced(context, goal);
    Spaced(company, context + " " + goal);
    Spaced(at, company + (context + " " + goal));
    Spaced(titled, at + " " + (company + (context + " " + goal)));
    Spaced(action, titled + (at + " " + (company + (context + " " + goal))));
  }

  /** Proposals over clean texts are clean, within the bounds of their columns, and open with the operator action. */
  lemma ProposalsAreClean(company: string, name: string, title: Option<string>, goal: string)
    requires CleanText(company) && CleanText(name) && CleanText(goal) && (title.Some? ==> CleanText(title.value))
    ensures var p := BuildProposals(company, name, title, goal);
      && CleanText(p.leadTitle) && |p.leadTitle| <= 255
      && CleanText(p.taskTitle) && |p.taskTitle| <= 255
      && CleanText(p.taskDescription) && |p.taskDescription| <= 4000 && p.taskDescription[0] == ACTION[0]
  {
    FixedTextsAreClean();
    Spaced(LEAD_TITLE, company);
    Spaced(TASK_TITLE, name);
    BoundedStaysClean(LEAD_TITLE + " " + company, 255);
    BoundedStaysClean(TASK_TITLE + " " + name, 255);
    TitledIsClean(WITH_TITLE, name, title);
    DescriptionIsClean(ACTION, Titled(name, title), AT, company, CONTEXT, goal);
    BoundedStaysClean(ACTION + " " + (Titled(name, title) + " " + (AT + " " + (company + (CONTEXT + " " + goal)))),
                      4000);
  }

  /** The lead's title names the company and the task's the contact, whole wherever they fit and cut otherwise. */
  lemma TitlesRead(company: string, name: string, title: Option<string>, goal: string)
    ensures var p := BuildProposals(company, name, title, goal);
      && (|LEAD_TITLE| + 1 + |company| <= 255 ==> p.leadTitle == LEAD_TITLE + " " + company)
      && (|TASK_TITLE| + 1 + |name| <= 255 ==> p.taskTitle == TASK_TITLE + " " + name)
      && p.leadTitle <= LEAD_TITLE + " " + company && p.taskTitle <= TASK_TITLE + " " + name
  {
    BoundedIsPrefix(LEAD_TITLE + " " + company, 255);
    BoundedIsPrefix(TASK_TITLE + " " + name, 255);
  }

  lemma BoundedIsPrefix(s: string, maximum: nat)
    ensures BoundedText(s, maximum) <= s
  {
    if |s| > maximum { RStripShape(s[..maximum]); }
  }

  /** The description names the contact, with the title if there is one, the company and then the goal. */
  lemma DescriptionReads(company: string, name: string, title: Option<string>, goal: string)
    ensures var whole := ACTION + " " + name + (if title.Some? then " " + WITH_TITLE + " " + title.value else "")
                         + " " + AT + " " + company + CONTEXT + " " + goal;
      |whole| <= 4000 ==> BuildProposals(company, name, title, goal).taskDescription == whole
  {
    var person := name + (if title.Some? then " " + WITH_TITLE + " " + title.value else "");
    assert person == Titled(name, title);
    var titled := if title.Some? then " " + WITH_TITLE + " " + title.value else "";
    SameText(ACTION, name, titled, AT, company, CONTEXT, goal);
  }

  lemma SameText(action: string, name: string, titled: string, at: string, company: string, context: string,
                 goal: string)
    ensures action + " " + name + titled + " " + at + " " + company + context + " " + goal ==
            action + " " + ((name + titled) + " " + (at + " " + (company + (context + " " + goal))))
  {
  }

  /** The legacy description is never the current one. */
  lemma LegacyDescriptionDiffers(company: string, name: string, title: Option<string>, goal: string)
    requires CleanText(company) && CleanText(name) && CleanText(goal) && (title.Some? ==> CleanText(title.value))
    ensures LegacyDescription(company, name, title, goal) != BuildProposals(company, name, title, goal).taskDescription
  {
    FixedTextsAreClean();
    ProposalsAreClean(company, name, title, goal);
    TitledIsClean(WITH_TITLE, name, title);
    LegacyIsClean(LEGACY_ACTION, Titled(name, title), LEGACY_COMPANY, company, LEGACY_GOAL, goal);
    BoundedStaysClean(LEGACY_ACTION + " "
                      + (Titled(name, title) + (LEGACY_COMPANY + " " + (company + (LEGACY_GOAL + " " + goal)))), 4000);
  }

  // ----- Instants --------------------------------------------------------------------------------------------

  /** A `datetime`: microseconds since the first representable one, and the UTC offset if it carries one. */
  datatype Stamp = Stamp(local: int, offset: Option<int>)

  const END_OF_TIME := 315537897600000000

  /** The instant in UTC, a naive value being read as UTC; out of range it raises. */
  function Instant(s: Stamp): Checked<int> {
    var utc := if s.offset.Some? then s.local - s.offset.value else s.local;
    if 0 <= utc < END_OF_TIME then Valid(utc) else Invalid
  }

  // ----- What a token binds ------------------------------------------------------------------------------------

  datatype SourceType = ContactPage | AboutPage | TeamPage | LeadershipPage | StaffPage | OtherPublicPage

  /**
   The rows behind a handoff, as they are stored: the company, the discovery state and one candidate, with
   the goal.
   */
  datatype Subject = Subject(
    projectId: nat, companyId: nat, companyName: Option<string>, website: Option<string>, goal: string,
    provider: string, checkedAt: Stamp,
    candidateId: nat, key: string, name: Option<string>, title: Option<string>, email: Option<string>,
    phone: Option<string>, sourceUrl: Option<string>, sourceType: SourceType, confidence: nat)

  datatype Payload = Payload(
    projectId: nat, companyId: nat, companyName: string, website: string, goal: string,
    provider: string, checkedAt: int,
    candidateId: nat, key: string, name: Option<string>, title: Option<string>, email: Option<string>,
    phone: Option<string>, sourceUrl: Option<string>, sourceType: SourceType, confidence: nat, proposals: Proposals)

  /** A required text of the payload: collapsed, not empty, without NUL and within its bound. */
  function Required(value: string, maximum: nat): Checked<string> {
    var normalized := Collapse(value);
    if normalized == "" || '\0' in normalized || |normalized| > maximum then Invalid else Valid(normalized)
  }

  function Optional(value: Option<string>, maximum: nat): Checked<Option<string>> {
    if value.None? then Valid(None)
    else
      var normalized :- Required(value.value, maximum);
      Valid(Some(normalized))
  }

  function RequiredProposals(p: Proposals): Checked<Proposals> {
    var leadTitle :- Required(p.leadTitle, 255);
    var taskTitle :- Required(p.taskTitle, 255);
    var taskDescription :- Required(p.taskDescription, 4000);
    Valid(Proposals(leadTitle, taskTitle, taskDescription))
  }

  function CandidateTexts(x: Subject, name: string):
    Checked<(Option<string>, Option<string>, Option<string>, Option<string>, Option<string>)>
  {
    var shownName :- Optional(Some(name), 255);
    var title :- Optional(ContactText(x.title), 255);
    var email :- Optional(ContactText(x.email), 255);
    var phone :- Optional(ContactText(x.phone), 100);
    var sourceUrl :- Optional(ContactText(x.sourceUrl), 500);
    Valid((shownName, title, email, phone, sourceUrl))
  }

  /** The payload of the rows: first the texts a snapshot takes, then those the token makes of them. */
  function PayloadOf(x: Subject): Checked<Payload> {
    var company, site, person := ContactText(x.companyName), ContactText(x.website), ContactText(x.name);
    if company.None? || site.None? || person.None? || x.projectId == 0 || x.companyId == 0 || x.candidateId == 0
      || x.confidence > 100
    then Invalid
    else
      var proposals := BuildProposals(company.value, person.value, ContactText(x.title), Collapse(x.goal));
      var companyName :- Required(company.value, 255);
      var website :- Required(site.value, 255);
      var goal :- Required(Collapse(x.goal), 2000);
      var provider :- Required(x.provider, 100);
      var checkedAt :- Instant(x.checkedAt);
      var key :- Required(x.key, 255);
      var texts :- CandidateTexts(x, person.value);
      var bounded :- RequiredProposals(proposals);
      Valid(Payload(x.projectId, x.companyId, companyName, website, goal, provider, checkedAt, x.candidateId, key,
                    texts.0, texts.1, texts.2, texts.3, texts.4, x.sourceType, x.confidence, bounded))
  }

  /** The token: a hash of the payload's canonical JSON. */
  function Token(hash: Payload -> string, x: Subject): Checked<string> {
    var payload :- PayloadOf(x);
    Valid(hash(payload))
  }

  ghost predicate Injective(hash: Payload -> string) {
    forall a, b :: hash(a) == hash(b) ==> a == b
  }

  /** The rows agree in everything a token binds, up to whitespace and to how the instant is written. */
  predicate Agree(x: Subject, y: Subject) {
    && x.projectId == y.projectId && x.companyId == y.companyId && x.candidateId == y.candidateId
    && ContactText(x.companyName) == ContactText(y.companyName) && ContactText(x.website) == ContactText(y.website)
    && Collapse(x.goal) == Collapse(y.goal) && Collapse(x.provider) == Collapse(y.provider)
    && Instant(x.checkedAt) == Instant(y.checkedAt)
    && Collapse(x.key) == Collapse(y.key)
    && ContactText(x.name) == ContactText(y.name) && ContactText(x.title) == ContactText(y.title)
    && ContactText(x.email) == ContactText(y.email) && ContactText(x.phone) == ContactText(y.phone)
    && ContactText(x.sourceUrl) == ContactText(y.sourceUrl)
    && x.sourceType == y.sourceType && x.confidence == y.confidence
  }

  predicate Fits(value: string, maximum: nat) {
    Collapse(value) != "" && '\0' !in Collapse(value) && |Collapse(value)| <= maximum
  }

  predicate OptionalFits(value: Option<string>, maximum: nat) {
    ContactText(value).Some? ==> Fits(value.value, maximum)
  }

  /** The bounds on the rows themselves. */
  predicate Bindable(x: Subject) {
    && x.projectId > 0 && x.companyId > 0 && x.candidateId > 0 && x.confidence <= 100 && Instant(x.checkedAt).Valid?
    && x.companyName.Some? && Fits(x.companyName.value, 255) && x.website.Some? && Fits(x.website.value, 255)
    && Fits(x.goal, 2000) && Fits(x.provider, 100) && Fits(x.key, 255)
    && x.name.Some? && Fits(x.name.value, 255)
    && OptionalFits(x.title, 255) && OptionalFits(x.email, 255) && OptionalFits(x.phone, 100)
    && OptionalFits(x.sourceUrl, 500)
  }

  // ----- When a token is built ---------------------------------------------------------------------------------

  predicate NoNul(s: string) {
    '\0' !in s
  }

  lemma FixedHasNoNul(word: string, rest: string)
    requires NoNul(word) && NoNul(rest)
    ensures NoNul(Fixed(word, rest))
  {
    CollapseIntroducesNoNul(word + rest);
  }

  lemma CollapseIntroducesNoNul(s: string)
    requires NoNul(s)
    ensures NoNul(Collapse(s))
  {
    CollapseKeepsCharacters(s);
  }

  lemma TitlesHaveNoNul()
    ensures NoNul(LEAD_TITLE) && NoNul(TASK_TITLE) && NoNul(WITH_TITLE) && NoNul(AT)
  {
    FixedHasNoNul("Bohemia", " Bali partnership \U{2014}");
    FixedHasNoNul("Review", " and prepare outreach to");
    FixedHasNoNul("with", " title");
    FixedHasNoNul("at", "");
  }

  lemma ActionHasNoNul()
    ensures NoNul(ACTION)
  {
    var a, b := " operator action: review and", " prepare personalized outreach to";
    assert NoNul(a) && NoNul(b);
    FixedHasNoNul("Next", a + b);
  }

  lemma ContextOpensWithoutNul()
    ensures NoNul(" The resulting Task is the" + " actionable follow-up for the")
  {
    assert NoNul(" The resulting Task is the");
    assert NoNul(" actionable follow-up for the");
  }

  lemma ContextGoesOnWithoutNul()
    ensures NoNul(" resulting Lead. Use the selected")
    ensures NoNul(" Contact, Company, and Agent goal")
  {
  }

  lemma ContextEndsWithoutNul()
    ensures NoNul(" as authoritative context. Goal:")
  {
  }

  lemma NoNulConcatenation(a: string, b: string, c: string, d: string)
    requires NoNul(a) && NoNul(b) && NoNul(c) && NoNul(d)
    ensures NoNul(a + b + c + d)
  {
  }

  lemma ContextHasNoNul()
    ensures NoNul(CONTEXT)
  {
    ContextOpensWithoutNul();
    ContextGoesOnWithoutNul();
    ContextEndsWithoutNul();
    var a := " The resulting Task is the" + " actionable follow-up for the";
    var b, c, d := " resulting Lead. Use the selected", " Contact, Company, and Agent goal",
      " as authoritative context. Goal:";
    NoNulConcatenation(a, b, c, d);
    FixedHasNoNul(".", a + b + c + d);
  }

  lemma BoundedHasNoNul(s: string, maximum: nat)
    requires NoNul(s)
    ensures NoNul(BoundedText(s, maximum))
  {
    if |s| > maximum {
      RStripShape(s[..maximum]);
      assert forall c :: c in RStrip(s[..maximum]) ==> c in s;
    }
  }

  lemma ProposalsHaveNoNul(company: string, name: string, title: Option<string>, goal: string)
    requires NoNul(company) && NoNul(name) && NoNul(goal) && (title.Some? ==> NoNul(title.value))
    ensures var p := BuildProposals(company, name, title, goal);
      NoNul(p.leadTitle) && NoNul(p.taskTitle) && NoNul(p.taskDescription)
  {
    TitlesHaveNoNul();
    ActionHasNoNul();
    ContextHasNoNul();
    BoundedHasNoNul(LEAD_TITLE + " " + company, 255);
    BoundedHasNoNul(TASK_TITLE + " " + name, 255);
    NoNulConcat(ACTION, Titled(name, title), AT, company, CONTEXT, goal, title);
    BoundedHasNoNul(ACTION + " " + (Titled(name, title) + " " + (AT + " " + (company + (CONTEXT + " " + goal)))), 4000);
  }

  lemma NoNulConcat(action: string, titled: string, at: string, company: string, context: string, goal: string,
                    title: Option<string>)
    requires NoNul(action) && NoNul(titled) && NoNul(at) && NoNul(company) && NoNul(context) && NoNul(goal)
    ensures NoNul(action + " " + (titled + " " + (at + " " + (company + (context + " " + goal)))))
  {
  }

  lemma RequiredKeepsClean(s: string, maximum: nat)
    requires CleanText(s)
    ensures Required(s, maximum) == if NoNul(s) && |s| <= maximum then Valid(s) else Invalid
  {
    NormalIsFixed(s);
  }

  /** A required text, taken by the snapshot first and by the token after, is the collapsed text if that fits. */
  lemma RequiredOfContactText(value: string, maximum: nat)
    ensures Required(Collapse(value), maximum) == Required(value, maximum)
    ensures Required(value, maximum) == if Fits(value, maximum) then Valid(Collapse(value)) else Invalid
    ensures Collapse(value) != "" ==> CleanText(Collapse(value))
  {
    CollapseIsNormal(value);
  }

  lemma OptionalOfContactText(value: Option<string>, maximum: nat)
    ensures Optional(ContactText(value), maximum) ==
      if OptionalFits(value, maximum) then Valid(ContactText(value)) else Invalid
  {
    if value.Some? {
      RequiredOfContactText(value.value, maximum);
    }
  }

  lemma ProposalsAreKept(company: string, name: string, title: Option<string>, goal: string)
    requires CleanText(company) && CleanText(name) && CleanText(goal) && (title.Some? ==> CleanText(title.value))
    requires NoNul(company) && NoNul(name) && NoNul(goal) && (title.Some? ==> NoNul(title.value))
    ensures var p := BuildProposals(company, name, title, goal); RequiredProposals(p) == Valid(p)
  {
    ProposalsAreClean(company, name, title, goal);
    ProposalsHaveNoNul(company, name, title, goal);
    var p := BuildProposals(company, name, title, goal);
    RequiredKeepsClean(p.leadTitle, 255);
    RequiredKeepsClean(p.taskTitle, 255);
    RequiredKeepsClean(p.taskDescription, 4000);
  }

  /** The payload of rows within their bounds: every text in collapsed form and the proposals as they were built. */
  function CanonicalPayload(x: Subject): Payload
    requires Bindable(x)
  {
    var company, name := Collapse(x.companyName.value), Collapse(x.name.value);
    Payload(x.projectId, x.companyId, company, Collapse(x.website.value), Collapse(x.goal), Collapse(x.provider),
            Instant(x.checkedAt).value, x.candidateId, Collapse(x.key),
            Some(name), ContactText(x.title), ContactText(x.email), ContactText(x.phone), ContactText(x.sourceUrl),
            x.sourceType, x.confidence, BuildProposals(company, name, ContactText(x.title), Collapse(x.goal)))
  }

  lemma BindableTexts(x: Subject)
    requires Bindable(x)
    ensures ContactText(x.companyName) == Some(Collapse(x.companyName.value))
      && ContactText(x.website) == Some(Collapse(x.website.value))
    ensures ContactText(x.name) == Some(Collapse(x.name.value))
    ensures RequiredProposals(CanonicalPayload(x).proposals) == Valid(CanonicalPayload(x).proposals)
  {
    RequiredOfContactText(x.companyName.value, 255);
    RequiredOfContactText(x.name.value, 255);
    RequiredOfContactText(x.goal, 2000);
    if ContactText(x.title).Some? {
      RequiredOfContactText(x.title.value, 255);
    }
    ProposalsAreKept(Collapse(x.companyName.value), Collapse(x.name.value), ContactText(x.title), Collapse(x.goal));
  }

  lemma CandidateTextsOf(x: Subject, name: string)
    requires CleanText(name)
    ensures CandidateTexts(x, name) ==
      if NoNul(name) && |name| <= 255 && OptionalFits(x.title, 255) && OptionalFits(x.email, 255)
        && OptionalFits(x.phone, 100)
         && OptionalFits(x.sourceUrl, 500)
      then Valid((Some(name), ContactText(x.title), ContactText(x.email), ContactText(x.phone),
                  ContactText(x.sourceUrl)))
      else Invalid
  {
    RequiredKeepsClean(name, 255);
    OptionalOfContactText(x.title, 255);
    OptionalOfContactText(x.email, 255);
    OptionalOfContactText(x.phone, 100);
    OptionalOfContactText(x.sourceUrl, 500);
  }

  /**
   A token is built exactly when the rows are within their bounds: the proposals, cut to theirs, never stand in
   the way, and every text enters in its collapsed form.
   */
  lemma PayloadExactlyWhenBindable(x: Subject)
    ensures PayloadOf(x) == if Bindable(x) then Valid(CanonicalPayload(x)) else Invalid
  {
    if x.companyName.Some? && x.website.Some? && x.name.Some? {
      RequiredOfContactText(x.companyName.value, 255);
      RequiredOfContactText(x.website.value, 255);
      RequiredOfContactText(x.name.value, 255);
      RequiredOfContactText(x.goal, 2000);
      RequiredOfContactText(x.provider, 100);
      RequiredOfContactText(x.key, 255);
      if ContactText(x.name).Some? {
        CandidateTextsOf(x, Collapse(x.name.value));
      }
      if Bindable(x) {
        BindableTexts(x);
      }
    }
  }

  // ----- When a token is accepted --------------------------------------------------------------------------------

  lemma AgreeingRowsBind(x: Subject, y: Subject)
    requires Agree(x, y)
    ensures Bindable(x) <==> Bindable(y)
  {
  }

  /** Rows within their bounds have one payload exactly when they agree up to whitespace and time zone. */
  lemma PayloadsAgree(x: Subject, y: Subject)
    requires Bindable(x) && Bindable(y)
    ensures CanonicalPayload(x) == CanonicalPayload(y) <==> Agree(x, y)
  {
    BindableTexts(x);
    BindableTexts(y);
  }

  /**
   With an injective hash, the token recomputed at apply time is the one the plan gave out exactly when the rows
   still agree with those of the plan in every bound field, up to whitespace and to how the instant is written.
   */
  lemma TokenAcceptedExactlyWhenUnchanged(hash: Payload -> string, planned: Subject, now: Subject)
    requires Injective(hash) && Token(hash, planned).Valid?
    ensures Token(hash, now) == Token(hash, planned) <==> Agree(planned, now)
  {
    PayloadExactlyWhenBindable(planned);
    PayloadExactlyWhenBindable(now);
    if Bindable(now) {
      PayloadsAgree(planned, now);
      assert hash(CanonicalPayload(planned)) == hash(CanonicalPayload(now)) ==>
        CanonicalPayload(planned) == CanonicalPayload(now);
    } else {
      if Agree(planned, now) {
        AgreeingRowsBind(planned, now);
      }
    }
  }

  lemma NaiveAgrees(x: Subject, naive: Subject)
    requires Instant(x.checkedAt).Valid? && naive == x.(checkedAt := Stamp(x.checkedAt.local, None))
    ensures Agree(x, naive) <==> x.checkedAt.offset.None? || x.checkedAt.offset == Some(0)
  {
  }

  /**
   A check time stored with an offset and read back without one keeps the token exactly when the offset was zero,
   which is how discovery writes it.
   */
  lemma NaiveReadBack(hash: Payload -> string, planned: Subject, naive: Subject)
    requires Injective(hash) && Token(hash, planned).Valid?
    requires naive == planned.(checkedAt := Stamp(planned.checkedAt.local, None))
    ensures Token(hash, naive) == Token(hash, planned) <==>
      planned.checkedAt.offset.None? || planned.checkedAt.offset == Some(0)
  {
    InstantIsValid(hash, planned);
    NaiveAgrees(planned, naive);
    TokenAcceptedExactlyWhenUnchanged(hash, planned, naive);
  }

  lemma InstantIsValid(hash: Payload -> string, x: Subject)
    requires Token(hash, x).Valid?
    ensures Instant(x.checkedAt).Valid?
  {
    PayloadExactlyWhenBindable(x);
  }
}
