/** Lawful tables and concrete inputs on which normalisation, staging and previews fail in the ways described. */
module WitnessTables {
  import opened Common
  import opened Text
  import opened Platform
  import opened StagingNormalization
  import opened StagingAdapter
  import opened StagingMerge
  import opened StagingDeduplication
  import opened StagingOrchestration
  import opened PlatformLaws

  // ----- Splitting URLs that carry a fragment ----------------------------------------------------------

  /** Rendered URLs have no fragment, so what a splitter makes of texts with a `#` is free. */
  lemma RenderHasNoFragment(t: Tables, w: string, parts: UrlParts)
    requires t.LiteralLaw() && Renders(t, w, parts)
    ensures '#' !in w
  {
    StrippedRender(t, parts);
    WellFormedHost(t, parts);
    NetlocHasNoHash(parts.host, parts.port);
    RestHasNoHash(t, parts);
    var netloc, rest := Netloc(parts.host, parts.port), Rest(parts);
    NoHashInJoined(parts.scheme, "://", netloc, rest);
  }

  lemma NoHashInJoined(a: string, b: string, c: string, d: string)
    requires '#' !in a && '#' !in b && '#' !in c && '#' !in d
    ensures '#' !in a + (b + (c + d))
  {
  }

  lemma NetlocHasNoHash(host: string, port: Option<nat>)
    requires HostText(host)
    ensures '#' !in Netloc(host, port)
  {
    if port.Some? {
      DecimalShape(port.value);
    }
  }

  lemma RestHasNoHash(t: Tables, parts: UrlParts)
    requires t.WellFormed(parts)
    ensures '#' !in Rest(parts)
  {
    RStripShape(parts.path);
    RStripShape(parts.query);
    assert forall c :: c in parts.path || c in parts.query ==> c in parts.path + parts.query;
    assert forall c :: c in RStrip(parts.path) ==> c in parts.path;
    assert forall c :: c in RStrip(parts.query) ==> c in parts.query;
  }

  /** The tables with a splitter that also reads some texts with a fragment. */
  ghost function WithFragments(t: Tables, fragments: map<string, SplitUrl>): Tables {
    t.(urlSplit := w => if w in fragments then Some(fragments[w]) else SplitOf(t, w))
  }

  ghost predicate Splits(w: string, split: SplitUrl) {
    && '#' in w && PathQuery(split.path, split.query) && ValidPort(split.port)
    && !HasMarkup(split.path) && !HasMarkup(split.query)
  }

  lemma FragmentsAreLawful(t: Tables, fragments: map<string, SplitUrl>)
    requires t.NfkcLaw() && t.CasefoldLaw() && t.IdnaLaw() && t.LiteralLaw() && t.CountryLaw()
    requires forall w :: w in fragments ==> Splits(w, fragments[w])
    ensures WithFragments(t, fragments).Lawful()
  {
    var made := WithFragments(t, fragments);
    assert made.NfkcLaw() && made.CasefoldLaw() && made.IdnaLaw() && made.LiteralLaw() && made.CountryLaw();
    forall parts | made.WellFormed(parts)
      ensures made.urlSplit(Strip(Render(parts))) == Some(SplitFrom(parts))
    {
      var w := Strip(Render(parts));
      assert Renders(t, w, parts);
      RenderHasNoFragment(t, w, parts);
      SplitsRendered(t, w, parts);
    }
    assert made.RoundTripLaw();
    forall w | made.urlSplit(w).Some?
      ensures var split := made.urlSplit(w).value;
        && PathQuery(split.path, split.query) && ValidPort(split.port)
        && (!HasMarkup(w) ==> !HasMarkup(split.path) && !HasMarkup(split.query))
    {
      if w !in fragments {
        SplitIsClean(t, w);
      }
    }
    assert made.SplitLaw();
  }

  // ----- The tables ------------------------------------------------------------------------------------

  /** A hostname that opens with a fullwidth letter and is encoded as `localhost`. */
  const FULLWIDTH_HOST := "\U{FF4C}ocalhost"

  const FULLWIDTH_SIGN := "\U{FF1C}"

  /** NFKC folds a lone fullwidth sign, IDNA the fullwidth host; there is one country and no literal. */
  function Folding(): Tables {
    Tables(
      s => if Collapse(s) == FULLWIDTH_SIGN then "<" else s,
      s => s,
      h => if h == FULLWIDTH_HOST then Some("localhost") else Some(h),
      _ => None,
      s => if s == "US" then Some("US") else None,
      _ => None, _ => Valid(None))
  }

  const BLANK_URL := "http://host/x #y"
  const WWW_URL := "http://www.localhost/#"
  const ENCODED_URL := "http://\U{FF4C}ocalhost/#"

  function Fragments(): map<string, SplitUrl> {
    map[BLANK_URL := SplitUrl("http", false, Some("host"), true, None, "/x ", ""),
        WWW_URL := SplitUrl("http", false, Some("www.localhost"), true, None, "/", ""),
        ENCODED_URL := SplitUrl("http", false, Some(FULLWIDTH_HOST), true, None, "/", "")]
  }

  ghost function Witness(): Tables {
    WithFragments(Folding(), Fragments())
  }

  lemma FoldingKeepsLaws()
    ensures var t := Folding(); t.NfkcLaw() && t.CasefoldLaw() && t.IdnaLaw() && t.LiteralLaw() && t.CountryLaw()
  {
    var t := Folding();
    forall s
      ensures t.nfkc(Collapse(t.nfkc(s))) == Collapse(t.nfkc(s))
    {
      CollapseIsNormal(s);
      SignIsNormal();
    }
    forall h | ValidHost(h)
      ensures t.idna(h) == Some(h)
    {
      ValidHostShape(h);
      FullwidthIsNoHostText();
    }
  }

  lemma FullwidthIsNoHostText()
    ensures !HostText(FULLWIDTH_HOST)
  {
    assert FULLWIDTH_HOST[0] == '\U{FF4C}' && FULLWIDTH_HOST[0] in FULLWIDTH_HOST;
  }

  lemma SignIsNormal()
    ensures Collapse("<") == "<" && Collapse(FULLWIDTH_SIGN) == FULLWIDTH_SIGN && "<" != FULLWIDTH_SIGN
  {
    OneCharacter('<');
    OneCharacter('\U{FF1C}');
    assert "<" == ['<'] && FULLWIDTH_SIGN == ['\U{FF1C}'];
  }

  lemma OneCharacter(c: char)
    requires !IsSpace(c)
    ensures Collapse([c]) == [c]
  {
    NormalIsFixed([c]);
  }

  lemma WitnessIsLawful()
    ensures Witness().Lawful()
  {
    FoldingKeepsLaws();
    forall w | w in Fragments()
      ensures Splits(w, Fragments()[w])
    {
      FragmentSplits(w);
    }
    FragmentsAreLawful(Folding(), Fragments());
  }

  lemma FragmentSplits(w: string)
    requires w in Fragments()
    ensures Splits(w, Fragments()[w])
  {
    assert BLANK_URL[14] == '#';
    assert WWW_URL[21] == '#';
    assert ENCODED_URL[17] == '#';
    assert w == BLANK_URL || w == WWW_URL || w == ENCODED_URL;
  }

  lemma WitnessSplits()
    ensures Witness().urlSplit(BLANK_URL) == Some(SplitUrl("http", false, Some("host"), true, None, "/x ", ""))
    ensures Witness().urlSplit(WWW_URL) == Some(SplitUrl("http", false, Some("www.localhost"), true, None, "/", ""))
    ensures Witness().urlSplit(ENCODED_URL) == Some(SplitUrl("http", false, Some(FULLWIDTH_HOST), true, None, "/", ""))
  {
    EncodedHost();
  }

  // ----- The inputs --------------------------------------------------------------------------------------

  lemma UrlIsPlain(w: string)
    requires w != "" && !IsSpace(w[0]) && !IsSpace(w[|w| - 1])
    ensures Strip(w) == w
  {
  }

  /** Normalising `http://host/x #y` leaves a trailing blank that normalising again removes. */
  lemma BlankUrlIsNotSettled()
    ensures Witness().Lawful()
    ensures var first := NormalizeStagingWebsite(Witness(), BLANK_URL);
      && first.Valid? && NormalizeStagingWebsite(Witness(), first.value.url).Valid?
      && NormalizeStagingWebsite(Witness(), first.value.url) != first
  {
    var t := Witness();
    WitnessIsLawful();
    WitnessSplits();
    HostIsAHost();
    UrlIsPlain(BLANK_URL);
    var first := UrlParts("http", "host", None, "/x ", "");
    FragmentLeavesTrailingBlank(t, BLANK_URL, "host", first);
    BlankIsSeen(first);
  }

  lemma HostIsAHost()
    ensures ValidHost("host") && WithoutWww("host") == "host"
    ensures !HasMarkup(BLANK_URL)
  {
    var host := "host";
    assert forall i :: 0 <= i < |host| ==> 'a' <= host[i] <= 'z';
    LettersAreAHost(host);
  }

  lemma BlankIsSeen(parts: UrlParts)
    requires parts.path == "/x " && parts.query == ""
    ensures Render(parts) != Render(parts.(path := "/x"))
  {
    var front := parts.scheme + "://" + Netloc(parts.host, parts.port);
    assert Render(parts) == front + "/x " && Render(parts.(path := "/x")) == front + "/x";
    assert |front + "/x "| == |front| + 3 && |front + "/x"| == |front| + 2;
  }

  /** A website with a fullwidth letter becomes `localhost` when it is encoded, and is refused when normalised again. */
  lemma EncodedUrlIsRefusedLater()
    ensures Witness().Lawful()
    ensures var first := NormalizeStagingWebsite(Witness(), ENCODED_URL);
      first.Valid? && NormalizeStagingWebsite(Witness(), first.value.url).Invalid?
  {
    var t := Witness();
    WitnessIsLawful();
    WitnessSplits();
    EncodedHost();
    UrlIsPlain(ENCODED_URL);
    EncodedLocalhostIsRefusedLater(t, ENCODED_URL, FULLWIDTH_HOST, UrlParts("http", "localhost", None, "/", ""));
  }

  lemma EncodedHost()
    ensures RStripDots(FULLWIDTH_HOST) == FULLWIDTH_HOST && FULLWIDTH_HOST != "localhost"
    ensures !HasMarkup(ENCODED_URL) && !HasMarkup(WWW_URL)
    ensures ENCODED_URL != BLANK_URL && ENCODED_URL != WWW_URL && WWW_URL != BLANK_URL
  {
    assert FULLWIDTH_HOST[0] != "localhost"[0];
    assert ENCODED_URL[7] != BLANK_URL[7] && ENCODED_URL[7] != WWW_URL[7] && WWW_URL[7] != BLANK_URL[7];
  }

  /** Two websites with one identity, of which only the first is accepted again. */
  lemma TwoUrlsOneIdentity()
    ensures Witness().Lawful()
    ensures var (www, encoded) := (NormalizeStagingWebsite(Witness(), WWW_URL),
                                   NormalizeStagingWebsite(Witness(), ENCODED_URL));
      && www.Valid? && encoded.Valid? && www.value.identity == encoded.value.identity
      && NormalizeStagingWebsite(Witness(), www.value.url).Valid?
      && NormalizeStagingWebsite(Witness(), encoded.value.url).Invalid?
  {
    var t := Witness();
    WitnessIsLawful();
    WitnessSplits();
    EncodedHost();
    UrlIsPlain(ENCODED_URL);
    UrlIsPlain(WWW_URL);
    LocalhostTwice(t, WWW_URL, ENCODED_URL, FULLWIDTH_HOST);
  }

  /** A stored candidate whose snippet is a fullwidth sign. */
  function SignRow(): Row {
    Row(Draft(1, "p", Some("a"), None, Some("US"), None, None, None, Some(FULLWIDTH_SIGN)),
        Sighting("p", None,
                 Normalized(Some("a"), Some("a"), None, None, Some("US"), "name_country:" + "a" + "|" + "US")), 0)
  }

  lemma SignRowIsWellFormed()
    ensures WellFormedRow(Witness(), 1, SignRow())
  {
    NormalIsFixed("a");
    assert "a" != FULLWIDTH_SIGN by { assert "a"[0] != FULLWIDTH_SIGN[0]; }
    assert |"name_country:"| == 13;
    assert NormalForm(Witness(), SignRow().sighting.fields);
    assert CleanedText(Some(FULLWIDTH_SIGN), 1000);
  }

  /** The row is well formed and has no preview. */
  lemma SignRowHasNoCard()
    ensures Witness().Lawful() && WellFormedRow(Witness(), 1, SignRow())
      && CandidatePreview(Witness(), SignRow()).Invalid?
  {
    WitnessIsLawful();
    SignRowIsWellFormed();
    SignIsNormal();
    FullwidthMarkupHasNoCard(Witness(), 1, SignRow());
  }
}
