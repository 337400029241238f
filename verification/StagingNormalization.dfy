/** Normalisation of a staged candidate's website, name and country into its identity key. */
module StagingNormalization {
  import opened Common
  import opened Text
  import opened Platform

  datatype Site = Site(url: string, identity: string)

  datatype Normalized = Normalized(
    name: Option<string>, normalizedName: Option<string>,
    website: Option<string>, websiteIdentity: Option<string>,
    countryCode: Option<string>, identityKey: string)

  function NormalizeDisplayName(t: Tables, value: Option<string>): Checked<Option<string>> {
    if value.None? then Valid(None)
    else
      var normalized := Collapse(t.nfkc(value.value));
      if normalized == "" then Valid(None)
      else if HasMarkup(normalized) then Invalid
      else Valid(Some(normalized))
  }

  function NormalizeCountryCode(t: Tables, value: Option<string>): Checked<Option<string>> {
    if value.None? then Valid(None)
    else match t.isoCountry(value.value)
      case None => Invalid
      case Some(code) => Valid(Some(code))
  }

  /** The ASCII form of a case-folded host: a public IP literal compressed, or an IDNA name with valid labels. */
  function AsciiHost(t: Tables, hostname: string): Checked<string> {
    match t.parseIp(hostname)
    case Some(address) => if address.isPublic then Valid(address.compressed) else Invalid
    case None =>
      match t.idna(hostname)
      case None => Invalid
      case Some(ascii) => if ValidHost(ascii) then Valid(ascii) else Invalid
  }

  function WithoutWww(host: string): string {
    if "www." <= host then host[4..] else host
  }

  function IdentityPort(scheme: string, port: Option<nat>): Option<nat> {
    if (scheme, port) in {("http", Some(80)), ("https", Some(443))} then None else port
  }

  /** `"[h]:p"` or `"h:p"` when a port is kept, the bare host otherwise. */
  function SiteIdentity(parts: UrlParts): string {
    var host := WithoutWww(parts.host);
    match IdentityPort(parts.scheme, parts.port)
    case Some(port) => Bracketed(host) + ":" + Decimal(port)
    case None => host
  }

  function CanonicalParts(t: Tables, value: string): Checked<UrlParts> {
    var website := Strip(value);
    if website == "" || HasMarkup(website) then Invalid
    else match t.urlSplit(website)
      case None => Invalid
      case Some(split) =>
        var scheme := t.casefold(split.scheme);
        if scheme !in {"http", "https"} || split.hasCredentials || !split.portValid || split.hostname.None? then
          Invalid
        else
          var hostname := t.casefold(RStripDots(split.hostname.value));
          if hostname == "localhost" then Invalid
          else
            var ascii :- AsciiHost(t, hostname);
            Valid(UrlParts(scheme, ascii, split.port, split.path, split.query))
  }

  function NormalizeStagingWebsite(t: Tables, value: string): Checked<Site> {
    var parts :- CanonicalParts(t, value);
    Valid(Site(Render(parts), SiteIdentity(parts)))
  }

  function NormalizeCandidateIdentity(t: Tables, name: Option<string>, website: Option<string>,
                                      countryCode: Option<string>): Checked<Normalized>
  {
    var displayName :- NormalizeDisplayName(t, name);
    var normalizedName := if displayName.Some? then Some(t.casefold(displayName.value)) else None;
    var country :- NormalizeCountryCode(t, countryCode);
    var site :- if website.Some? then NormalizeOptionalSite(t, website.value) else Valid(None);
    if site.None? && (normalizedName.None? || country.None?) then Invalid
    else
      var key := if site.Some? then "website:" + site.value.identity
                 else "name_country:" + normalizedName.value + "|" + country.value;
      if displayName.Some? && |displayName.value| > 255 then Invalid
      else if normalizedName.Some? && |normalizedName.value| > 255 then Invalid
      else if site.Some? && |site.value.url| > 500 then Invalid
      else if site.Some? && |site.value.identity| > 300 then Invalid
      else if |key| > 700 then Invalid
      else Valid(Normalized(
        displayName, normalizedName,
        if site.Some? then Some(site.value.url) else None,
        if site.Some? then Some(site.value.identity) else None,
        country, key))
  }

  function NormalizeOptionalSite(t: Tables, website: string): Checked<Option<Site>> {
    var site :- NormalizeStagingWebsite(t, website);
    Valid(Some(site))
  }

  // ----- Normalising a second time --------------------------------------------------------------

  /** A host that passes the checks made before IDNA encoding when it is read back. */
  predicate HostSettled(t: Tables, host: string) {
    host != "localhost" && (t.parseIp(host).Some? ==> t.parseIp(host).value.isPublic)
  }

  /** A URL without outer whitespace whose host is neither `localhost` nor a non-public literal. */
  predicate UrlSettled(t: Tables, url: string) {
    && Strip(url) == url
    && var split := t.urlSplit(url);
    && split.Some? && split.value.hostname.Some? && HostSettled(t, split.value.hostname.value)
  }

  lemma {:induction false} LabelsShape(host: string)
    requires forall part, c :: part in Labels(host) && c in part ==> Alphanumeric(c) || c == '-'
    ensures Labels(host) != []
    ensures HostText(host) && ':' !in host
    ensures var last := Labels(host)[|Labels(host)| - 1];
      last != "" ==> host != "" && host[|host| - 1] == last[|last| - 1]
  {
    if host != "" {
      var rest := Labels(host[1..]);
      var all := Labels(host);
      forall part, c | part in rest && c in part
        ensures Alphanumeric(c) || c == '-'
      {
        var k :| 0 <= k < |rest| && rest[k] == part;
        if host[0] == '.' {
          assert all[k + 1] == part;
        } else if k == 0 {
          assert all[0] == [host[0]] + part && c in all[0];
        } else {
          assert all[k] == part;
        }
      }
      LabelsShape(host[1..]);
      if host[0] != '.' {
        assert host[0] in all[0];
      }
      assert host == [host[0]] + host[1..];
    }
  }

  lemma ValidHostShape(host: string)
    requires ValidHost(host)
    ensures HostText(host) && ':' !in host && Alphanumeric(host[|host| - 1])
  {
    forall part, c | part in Labels(host) && c in part
      ensures Alphanumeric(c) || c == '-'
    {
      assert ValidLabel(part);
    }
    LabelsShape(host);
    assert ValidLabel(Labels(host)[|Labels(host)| - 1]);
  }

  /** Every host the normaliser produces is lower-case host text and does not end in a dot. */
  lemma HostShape(t: Tables, host: string)
    requires t.Lawful() && (ValidHost(host) || t.IsLiteral(host))
    ensures host != "" && HostText(host) && RStripDots(host) == host && !IsSpace(host[|host| - 1])
    ensures t.casefold(host) == host
    ensures AsciiHost(t, host) == if t.parseIp(host).Some? && !t.parseIp(host).value.isPublic then Invalid
                                  else Valid(host)
  {
    if ValidHost(host) {
      ValidHostShape(host);
    } else {
      assert LiteralText(host) && host[|host| - 1] in host;
    }
  }

  lemma {:induction false} DecimalShape(n: nat)
    ensures Decimal(n) != ""
    ensures forall c :: c in Decimal(n) ==> '0' <= c <= '9'
  {
    if n >= 10 {
      DecimalShape(n / 10);
      DecimalShape(n % 10);
    }
  }

  lemma NetlocShape(t: Tables, parts: UrlParts)
    requires t.Lawful() && t.WellFormed(parts)
    ensures var netloc := Netloc(parts.host, parts.port);
      netloc != "" && !HasMarkup(netloc) && !IsSpace(netloc[|netloc| - 1])
  {
    HostShape(t, parts.host);
    NetlocText(parts.host, parts.port);
  }

  lemma NetlocText(host: string, port: Option<nat>)
    requires host != "" && HostText(host) && !IsSpace(host[|host| - 1])
    ensures var netloc := Netloc(host, port);
      netloc != "" && !HasMarkup(netloc) && !IsSpace(netloc[|netloc| - 1])
  {
    BracketedText(host);
    if port.Some? {
      var digits := Decimal(port.value);
      DecimalShape(port.value);
      assert digits[|digits| - 1] in digits;
      PortText(Bracketed(host), digits);
      assert Netloc(host, port) == Bracketed(host) + (":" + digits);
    } else {
      assert Netloc(host, port) == Bracketed(host);
    }
  }

  lemma BracketedText(host: string)
    requires HostText(host)
    ensures !HasMarkup(Bracketed(host))
    ensures host != "" && !IsSpace(host[|host| - 1]) ==>
      Bracketed(host) != "" && !IsSpace(Bracketed(host)[|Bracketed(host)| - 1])
  {
  }

  lemma PortText(front: string, digits: string)
    requires !HasMarkup(front) && forall c :: c in digits ==> '0' <= c <= '9'
    ensures !HasMarkup(front + (":" + digits)) && !HasMarkup(front + ":" + digits)
    ensures digits != "" ==> (front + (":" + digits))[|front + (":" + digits)| - 1] == digits[|digits| - 1]
  {
  }

  lemma IdentityHasNoMarkup(t: Tables, parts: UrlParts)
    requires t.Lawful() && t.WellFormed(parts)
    ensures !HasMarkup(SiteIdentity(parts))
  {
    HostShape(t, parts.host);
    IdentityText(parts);
  }

  lemma IdentityText(parts: UrlParts)
    requires HostText(parts.host)
    ensures !HasMarkup(SiteIdentity(parts))
  {
    var host := WithoutWww(parts.host);
    assert forall c :: c in host ==> c in parts.host;
    BracketedText(host);
    match IdentityPort(parts.scheme, parts.port)
    case None =>
    case Some(port) =>
      DecimalShape(port);
      PortText(Bracketed(host), Decimal(port));
  }

  /** A text ending in a non-space only loses the whitespace set after it. */
  lemma {:induction false} RStripKeepsFront(front: string, tail: string)
    requires front != "" && !IsSpace(front[|front| - 1])
    ensures RStrip(front + tail) == front + RStrip(tail)
  {
    var all := front + tail;
    if tail == "" {
      assert all == front;
    } else {
      assert all[|all| - 1] == tail[|tail| - 1];
      if IsSpace(tail[|tail| - 1]) {
        assert all[..|all| - 1] == front + tail[..|tail| - 1];
        RStripKeepsFront(front, tail[..|tail| - 1]);
      }
    }
  }

  lemma TrimKeepsForm(t: Tables, parts: UrlParts)
    requires t.WellFormed(parts)
    ensures t.WellFormed(Trim(parts))
    ensures Trim(Trim(Trim(parts))) == Trim(Trim(parts))
  {
    RStripShape(parts.path);
    RStripShape(parts.query);
    if parts.path != "" && RStrip(parts.path) == "" {
      assert IsSpace(parts.path[0]);
    }
    assert forall c :: c in Trim(parts).path + Trim(parts).query ==> c in parts.path + parts.query;
  }

  /** A rendered URL has no outer whitespace exactly when trimming its parts changes nothing. */
  lemma RenderStrips(t: Tables, parts: UrlParts)
    requires t.Lawful() && t.WellFormed(parts)
    ensures Strip(Render(parts)) != ""
    ensures Strip(Render(parts)) == Render(parts) <==> Trim(parts) == parts
    ensures Trim(parts) != parts ==> |Render(Trim(parts))| < |Render(parts)|
    ensures |Render(Trim(parts))| <= |Render(parts)|
  {
    NetlocShape(t, parts);
    var front := parts.scheme + "://" + Netloc(parts.host, parts.port);
    RenderStripsFrom(parts, front);
  }

  lemma RenderStripsFrom(parts: UrlParts, front: string)
    requires front == parts.scheme + "://" + Netloc(parts.host, parts.port)
    requires parts.scheme in {"http", "https"} && !IsSpace(front[|front| - 1])
    ensures Strip(Render(parts)) != ""
    ensures Strip(Render(parts)) == Render(parts) <==> Trim(parts) == parts
    ensures Trim(parts) != parts ==> |Render(Trim(parts))| < |Render(parts)|
    ensures |Render(Trim(parts))| <= |Render(parts)|
  {
    var url := Render(parts);
    assert url[0] == 'h' && LStrip(url) == url;
    RStripShape(parts.path);
    RStripShape(parts.query);
    if parts.query == "" {
      assert url == front + parts.path;
      RStripKeepsFront(front, parts.path);
    } else {
      var before := front + parts.path + "?";
      assert url == before + parts.query;
      RStripKeepsFront(before, parts.query);
    }
  }

  lemma RenderHasNoMarkup(t: Tables, parts: UrlParts)
    requires t.Lawful() && t.WellFormed(parts)
    requires !HasMarkup(parts.path) && !HasMarkup(parts.query)
    ensures !HasMarkup(Render(parts))
  {
    NetlocShape(t, parts);
    RenderedText(parts);
  }

  lemma RenderedText(parts: UrlParts)
    requires parts.scheme in {"http", "https"} && !HasMarkup(Netloc(parts.host, parts.port))
    requires !HasMarkup(parts.path) && !HasMarkup(parts.query)
    ensures !HasMarkup(Render(parts))
  {
  }

  lemma CanonicalPartsShape(t: Tables, value: string)
    requires t.Lawful() && CanonicalParts(t, value).Valid?
    ensures var parts := CanonicalParts(t, value).value;
      t.WellFormed(parts) && !HasMarkup(parts.path) && !HasMarkup(parts.query)
  {
    SplitPartsShape(t, value);
  }

  lemma SplitPartsShape(t: Tables, value: string)
    requires t.SplitLaw() && t.LiteralLaw() && CanonicalParts(t, value).Valid?
    ensures var parts := CanonicalParts(t, value).value;
      t.WellFormed(parts) && !HasMarkup(parts.path) && !HasMarkup(parts.query)
  {
    var website := Strip(value);
    var split := t.urlSplit(website).value;
    AsciiHostShape(t, t.casefold(RStripDots(split.hostname.value)));
  }

  lemma AsciiHostShape(t: Tables, hostname: string)
    requires t.LiteralLaw() && AsciiHost(t, hostname).Valid?
    ensures ValidHost(AsciiHost(t, hostname).value) || t.IsLiteral(AsciiHost(t, hostname).value)
  {
  }

  /** Reading a rendered URL back: refused unless the host is settled, the same parts trimmed otherwise. */
  lemma ReadBack(t: Tables, parts: UrlParts)
    requires t.Lawful() && t.WellFormed(parts)
    requires !HasMarkup(parts.path) && !HasMarkup(parts.query)
    ensures CanonicalParts(t, Render(parts)) ==
            if HostSettled(t, parts.host) then Valid(Trim(parts)) else Invalid
  {
    var url := Render(parts);
    RenderStrips(t, parts);
    RenderHasNoMarkup(t, parts);
    StripShape(url);
    HostShape(t, parts.host);
    assert HostText(parts.scheme);
    ReadSplit(t, parts, url);
  }

  lemma ReadSplit(t: Tables, parts: UrlParts, url: string)
    requires Strip(url) != "" && !HasMarkup(Strip(url)) && parts.scheme in {"http", "https"}
    requires t.urlSplit(Strip(url)) == Some(SplitUrl(
      parts.scheme, false, Some(parts.host), true, parts.port, Trim(parts).path, Trim(parts).query))
    requires t.casefold(parts.scheme) == parts.scheme && RStripDots(parts.host) == parts.host
    requires t.casefold(parts.host) == parts.host
    requires AsciiHost(t, parts.host) == if t.parseIp(parts.host).Some?
      && !t.parseIp(parts.host).value.isPublic then Invalid
                                         else Valid(parts.host)
    ensures CanonicalParts(t, url) == if HostSettled(t, parts.host) then Valid(Trim(parts)) else Invalid
  {
  }

  /** The parts behind a normalised site. */
  ghost predicate SiteForm(t: Tables, parts: UrlParts, url: string, identity: string) {
    && t.WellFormed(parts) && !HasMarkup(parts.path) && !HasMarkup(parts.query)
    && url == Render(parts) && identity == SiteIdentity(parts)
  }

  lemma WebsiteReadBack(t: Tables, parts: UrlParts, url: string, identity: string)
    requires t.Lawful() && SiteForm(t, parts, url, identity)
    ensures UrlSettled(t, url) <==> HostSettled(t, parts.host) && Trim(parts) == parts
    ensures NormalizeStagingWebsite(t, url) ==
            if HostSettled(t, parts.host) then Valid(Site(Render(Trim(parts)), identity)) else Invalid
  {
    ReadBack(t, parts);
    RenderStrips(t, parts);
  }

  /**
   Normalising a normalised website gives it back unchanged exactly when it carries no outer whitespace
   and its encoded host is neither `localhost` nor a non-public IP literal.
   */
  lemma WebsiteRetraction(t: Tables, value: string)
    requires t.Lawful() && NormalizeStagingWebsite(t, value).Valid?
    ensures var site := NormalizeStagingWebsite(t, value).value;
      NormalizeStagingWebsite(t, site.url) == Valid(site) <==> UrlSettled(t, site.url)
  {
    CanonicalPartsShape(t, value);
    var parts := CanonicalParts(t, value).value;
    WebsiteReadBack(t, parts, Render(parts), SiteIdentity(parts));
    RenderStrips(t, parts);
  }

  function CasefoldName(t: Tables, name: Option<string>): Option<string> {
    if name.Some? then Some(t.casefold(name.value)) else None
  }

  function IdentityKey(websiteIdentity: Option<string>, normalizedName: Option<string>,
                       countryCode: Option<string>): string
  {
    if websiteIdentity.Some? then "website:" + websiteIdentity.value
    else if normalizedName.Some? && countryCode.Some? then
      "name_country:" + normalizedName.value + "|" + countryCode.value
    else ""
  }

  /** What every accepted candidate satisfies, whichever raw fields it came from. */
  ghost predicate NormalForm(t: Tables, n: Normalized) {
    && (n.name.Some? ==>
        var name := n.name.value;
        t.nfkc(name) == name && IsNormal(name) && name != "" && !HasMarkup(name) && |name| <= 255)
    && n.normalizedName == CasefoldName(t, n.name)
    && (n.normalizedName.Some? ==> |n.normalizedName.value| <= 255)
    && (n.countryCode.Some? ==> t.isoCountry(n.countryCode.value) == Some(n.countryCode.value))
    && (n.website.Some? <==> n.websiteIdentity.Some?)
    && (n.website.Some? ==>
        && |n.website.value| <= 500 && |n.websiteIdentity.value| <= 300
        && exists parts :: SiteForm(t, parts, n.website.value, n.websiteIdentity.value))
    && (n.website.None? ==> n.name.Some? && n.countryCode.Some?)
    && n.identityKey == IdentityKey(n.websiteIdentity, n.normalizedName, n.countryCode)
    && |n.identityKey| <= 700
  }

  lemma AcceptedIsNormalForm(t: Tables, name: Option<string>, website: Option<string>, countryCode: Option<string>)
    requires t.Lawful() && NormalizeCandidateIdentity(t, name, website, countryCode).Valid?
    ensures NormalForm(t, NormalizeCandidateIdentity(t, name, website, countryCode).value)
  {
    if name.Some? {
      CollapseIsNormal(t.nfkc(name.value));
    }
    if website.Some? {
      CanonicalPartsShape(t, website.value);
      var parts := CanonicalParts(t, website.value).value;
      assert SiteForm(t, parts, Render(parts), SiteIdentity(parts));
    }
  }

  /** What the repository does with an accepted candidate: it normalises its name, website and country again. */
  function Restage(t: Tables, n: Normalized): Checked<Normalized> {
    NormalizeCandidateIdentity(t, n.name, n.website, n.countryCode)
  }

  /** Restaging only ever touches the website; every other field, and the identity key, is kept. */
  lemma RestageFields(t: Tables, n: Normalized)
    requires t.Lawful() && NormalForm(t, n)
    ensures Restage(t, n) == RestageSite(t, n)
    ensures Restage(t, n).Valid? ==>
      NormalForm(t, Restage(t, n).value) && Restage(t, n).value == n.(website := Restage(t, n).value.website)
  {
    if n.website.Some? {
      var parts :| SiteForm(t, parts, n.website.value, n.websiteIdentity.value);
      WebsiteReadBack(t, parts, n.website.value, n.websiteIdentity.value);
      RenderStrips(t, parts);
      TrimmedForm(t, parts, n.website.value, n.websiteIdentity.value);
    }
    RestageOtherFields(t, n);
  }

  function RestageSite(t: Tables, n: Normalized): Checked<Normalized> {
    if n.website.None? then Valid(n)
    else match NormalizeStagingWebsite(t, n.website.value)
      case Invalid => Invalid
      case Valid(site) => Valid(n.(website := Some(site.url)))
  }

  lemma RestageOtherFields(t: Tables, n: Normalized)
    requires NormalForm(t, n)
    requires n.website.Some? && NormalizeStagingWebsite(t, n.website.value).Valid? ==>
      var site := NormalizeStagingWebsite(t, n.website.value).value;
      site.identity == n.websiteIdentity.value && |site.url| <= |n.website.value|
    ensures Restage(t, n) == RestageSite(t, n)
  {
    if n.name.Some? {
      NormalIsFixed(n.name.value);
    }
  }

  predicate Settled(t: Tables, n: Normalized) {
    n.website.Some? ==> UrlSettled(t, n.website.value)
  }

  lemma FormRetraction(t: Tables, n: Normalized)
    requires t.Lawful() && NormalForm(t, n)
    ensures Restage(t, n) == Valid(n) <==> Settled(t, n)
  {
    if n.website.Some? {
      var parts :| SiteForm(t, parts, n.website.value, n.websiteIdentity.value);
      WebsiteReadBack(t, parts, n.website.value, n.websiteIdentity.value);
      RenderStrips(t, parts);
    }
    RestageFields(t, n);
  }

  /** The host of a URL is neither `localhost` nor a non-public IP literal. */
  predicate HostOfUrlSettled(t: Tables, url: string) {
    var split := t.urlSplit(Strip(url));
    split.Some? && split.value.hostname.Some? && HostSettled(t, split.value.hostname.value)
  }

  /** An accepted candidate is accepted again exactly if the host of its normalised website is settled. */
  lemma RestagesExactlyWhenHostSettled(t: Tables, n: Normalized)
    requires t.Lawful() && NormalForm(t, n)
    ensures Restage(t, n).Valid? <==> (n.website.Some? ==> HostOfUrlSettled(t, n.website.value))
  {
    if n.website.Some? {
      var parts :| SiteForm(t, parts, n.website.value, n.websiteIdentity.value);
      WebsiteReadBack(t, parts, n.website.value, n.websiteIdentity.value);
    }
    RestageFields(t, n);
  }

  /** In terms of the fields first given: exactly if the encoded host of the website, where there is one, is settled. */
  lemma AcceptedAgainExactlyWhenEncodedHostSettled(t: Tables, name: Option<string>, website: Option<string>,
                                                   countryCode: Option<string>, n: Normalized)
    requires t.Lawful() && NormalizeCandidateIdentity(t, name, website, countryCode) == Valid(n)
    ensures website.Some? ==> CanonicalParts(t, website.value).Valid?
    ensures Restage(t, n).Valid? <==> (website.Some? ==> HostSettled(t, CanonicalParts(t, website.value).value.host))
  {
    AcceptedIsNormalForm(t, name, website, countryCode);
    RestageFields(t, n);
    if website.Some? {
      AcceptedSite(t, name, website.value, countryCode, n);
      AcceptedSiteReadBack(t, website.value);
    }
  }

  lemma AcceptedSite(t: Tables, name: Option<string>, website: string, countryCode: Option<string>, n: Normalized)
    requires NormalizeCandidateIdentity(t, name, Some(website), countryCode) == Valid(n)
    ensures NormalizeStagingWebsite(t, website).Valid?
      && n.website == Some(NormalizeStagingWebsite(t, website).value.url)
  {
  }

  lemma AcceptedSiteReadBack(t: Tables, value: string)
    requires t.Lawful() && NormalizeStagingWebsite(t, value).Valid?
    ensures CanonicalParts(t, value).Valid?
    ensures NormalizeStagingWebsite(t, NormalizeStagingWebsite(t, value).value.url).Valid? <==>
            HostSettled(t, CanonicalParts(t, value).value.host)
  {
    var parts := CanonicalParts(t, value).value;
    CanonicalPartsShape(t, value);
    WebsiteReadBack(t, parts, Render(parts), SiteIdentity(parts));
  }

  /** Candidate normalisation is a retraction on exactly the candidates whose normalised website is settled. */
  lemma CandidateRetraction(t: Tables, name: Option<string>, website: Option<string>, countryCode: Option<string>,
                            n: Normalized)
    requires t.Lawful() && NormalizeCandidateIdentity(t, name, website, countryCode) == Valid(n)
    ensures NormalizeCandidateIdentity(t, n.name, n.website, n.countryCode) == Valid(n) <==> Settled(t, n)
  {
    AcceptedIsNormalForm(t, name, website, countryCode);
    FormRetraction(t, n);
    assert Restage(t, n) == NormalizeCandidateIdentity(t, n.name, n.website, n.countryCode);
  }

  /**
   A query that is only whitespace hides the whitespace before it from the second pass, so it takes three
   passes, and never more, to reach a website that further passes leave alone.
   */
  lemma ThirdPassSettles(t: Tables, n: Normalized, second: Normalized)
    requires t.Lawful() && NormalForm(t, n) && Restage(t, n) == Valid(second)
    ensures exists third :: Restage(t, second) == Valid(third) && Restage(t, third) == Valid(third)
  {
    RestageFields(t, n);
    RestageFields(t, second);
    if n.website.Some? {
      var parts :| SiteForm(t, parts, n.website.value, n.websiteIdentity.value);
      WebsiteReadBack(t, parts, n.website.value, n.websiteIdentity.value);
      SitePasses(t, parts, n.website.value, n.websiteIdentity.value);
    }
    var third := Restage(t, second).value;
    RestageFields(t, third);
  }

  lemma SitePasses(t: Tables, parts: UrlParts, url: string, identity: string)
    requires t.Lawful() && SiteForm(t, parts, url, identity) && HostSettled(t, parts.host)
    ensures var second := Site(Render(Trim(parts)), identity);
      var third := Site(Render(Trim(Trim(parts))), identity);
      && NormalizeStagingWebsite(t, url) == Valid(second)
      && NormalizeStagingWebsite(t, second.url) == Valid(third)
      && NormalizeStagingWebsite(t, third.url) == Valid(third)
  {
    TrimmedForm(t, parts, url, identity);
    TrimmedForm(t, Trim(parts), Render(Trim(parts)), identity);
    TrimKeepsForm(t, parts);
    WebsiteReadBack(t, parts, url, identity);
    WebsiteReadBack(t, Trim(parts), Render(Trim(parts)), identity);
    WebsiteReadBack(t, Trim(Trim(parts)), Render(Trim(Trim(parts))), identity);
  }

  lemma TrimmedForm(t: Tables, parts: UrlParts, url: string, identity: string)
    requires SiteForm(t, parts, url, identity)
    ensures SiteForm(t, Trim(parts), Render(Trim(parts)), identity)
  {
    TrimKeepsForm(t, parts);
    RStripShape(parts.path);
    RStripShape(parts.query);
  }

  // ----- Inputs on which the first pass is not final ---------------------------------------------

  lemma PartsFromSplit(t: Tables, value: string, hostname: string, ascii: string, path: string)
    requires Strip(value) == value && value != "" && !HasMarkup(value) && t.casefold("http") == "http"
    requires t.urlSplit(value) == Some(SplitUrl("http", false, Some(hostname), true, None, path, ""))
    requires t.casefold(RStripDots(hostname)) != "localhost"
    requires AsciiHost(t, t.casefold(RStripDots(hostname))) == Valid(ascii)
    ensures NormalizeStagingWebsite(t, value) ==
            Valid(Site(Render(UrlParts("http", ascii, None, path, "")), WithoutWww(ascii)))
  {
  }

  lemma HttpIsFolded(t: Tables)
    requires t.Lawful()
    ensures t.casefold("http") == "http"
  {
    assert HostText("http");
  }

  /** `http://host/x #y`: dropping the fragment leaves a blank after the path, and the next pass strips it. */
  lemma FragmentLeavesTrailingBlank(t: Tables, value: string, host: string, first: UrlParts)
    requires t.Lawful() && ValidHost(host) && HostSettled(t, host)
    requires Strip(value) == value && value != "" && !HasMarkup(value)
    requires t.urlSplit(value) == Some(SplitUrl("http", false, Some(host), true, None, "/x ", ""))
    requires first == UrlParts("http", host, None, "/x ", "")
    ensures NormalizeStagingWebsite(t, value) == Valid(Site(Render(first), WithoutWww(host)))
    ensures NormalizeStagingWebsite(t, Render(first)) ==
            Valid(Site(Render(first.(path := "/x")), WithoutWww(host)))
  {
    HostShape(t, host);
    HttpIsFolded(t);
    PartsFromSplit(t, value, host, host, "/x ");
    assert RStrip("/x ") == "/x" by {
      RStripKeepsFront("/x", " ");
    }
    WebsiteReadBack(t, first, Render(first), WithoutWww(host));
  }

  lemma {:induction false} OneLabel(s: string)
    requires '.' !in s
    ensures Labels(s) == [s]
  {
    if s != "" {
      OneLabel(s[1..]);
      assert [s[0]] + s[1..] == s;
    }
  }

  lemma LettersAreAHost(s: string)
    requires 0 < |s| <= 63 && forall i :: 0 <= i < |s| ==> 'a' <= s[i] <= 'z'
    ensures ValidHost(s) && WithoutWww(s) == s
  {
    OneLabel(s);
    assert "www."[3] == '.';
  }

  lemma LocalhostIsAHost()
    ensures ValidHost("localhost") && WithoutWww("localhost") == "localhost"
  {
    var s := "localhost";
    assert forall i :: 0 <= i < |s| ==> 'a' <= s[i] <= 'z';
    LettersAreAHost(s);
  }

  lemma LocalhostIsNotReadBack(t: Tables, parts: UrlParts)
    requires t.Lawful() && parts == UrlParts("http", "localhost", None, "/", "")
    ensures NormalizeStagingWebsite(t, Render(parts)).Invalid?
  {
    LocalhostIsAHost();
    WebsiteReadBack(t, parts, Render(parts), "localhost");
  }

  /** A host that only becomes `localhost` when encoded passes the first pass and is refused by the second. */
  lemma EncodedLocalhostIsRefusedLater(t: Tables, value: string, hostname: string, first: UrlParts)
    requires t.Lawful() && Strip(value) == value && value != "" && !HasMarkup(value)
    requires t.urlSplit(value) == Some(SplitUrl("http", false, Some(hostname), true, None, "/", ""))
    requires var host := t.casefold(RStripDots(hostname));
      host != "localhost" && t.parseIp(host).None? && t.idna(host) == Some("localhost")
    requires first == UrlParts("http", "localhost", None, "/", "")
    ensures NormalizeStagingWebsite(t, value) == Valid(Site(Render(first), "localhost"))
    ensures NormalizeStagingWebsite(t, Render(first)).Invalid?
  {
    LocalhostIsNotReadBack(t, first);
    LocalhostIsAHost();
    HttpIsFolded(t);
    PartsFromSplit(t, value, hostname, "localhost", "/");
  }

  lemma WwwLocalhostIsAHost()
    ensures ValidHost("www.localhost") && WithoutWww("www.localhost") == "localhost"
  {
    var name := "localhost";
    assert forall i :: 0 <= i < |name| ==> 'a' <= name[i] <= 'z';
    LabelsWithWww(name);
    assert "www.localhost" == "www" + "." + name;
  }

  lemma LabelsWithWww(name: string)
    requires 0 < |name| <= 63 && forall i :: 0 <= i < |name| ==> 'a' <= name[i] <= 'z'
    ensures ValidHost("www" + "." + name) && WithoutWww("www" + "." + name) == name
  {
    var www := "www";
    OneLabel(name);
    LabelsOfTwo(www, name);
    assert ValidLabel(www) && ValidLabel(name);
    assert Labels(www + "." + name) == [www, name];
  }

  lemma {:induction false} LabelsOfTwo(s: string, rest: string)
    requires '.' !in s
    ensures Labels(s + "." + rest) == [s] + Labels(rest)
  {
    var all := s + "." + rest;
    if s == "" {
      assert all[1..] == rest;
    } else {
      LabelsOfTwo(s[1..], rest);
      assert all[1..] == s[1..] + "." + rest;
      assert [s[0]] + s[1..] == s;
    }
  }

  /**
   Two websites with one identity, of which only the first is read back: `www.localhost` and an encoded
   `localhost`.
   */
  lemma LocalhostTwice(t: Tables, www: string, value: string, hostname: string)
    requires t.Lawful() && Strip(www) == www && www != "" && !HasMarkup(www) && Strip(value) == value && value != ""
      && !HasMarkup(value)
    requires t.urlSplit(www) == Some(SplitUrl("http", false, Some("www.localhost"), true, None, "/", ""))
    requires t.urlSplit(value) == Some(SplitUrl("http", false, Some(hostname), true, None, "/", ""))
    requires t.parseIp("www.localhost").None?
    requires var host := t.casefold(RStripDots(hostname));
      host != "localhost" && t.parseIp(host).None? && t.idna(host) == Some("localhost")
    ensures NormalizeStagingWebsite(t, www).Valid? && NormalizeStagingWebsite(t, value).Valid?
    ensures NormalizeStagingWebsite(t, www).value.identity == NormalizeStagingWebsite(t, value).value.identity
    ensures NormalizeStagingWebsite(t, NormalizeStagingWebsite(t, www).value.url).Valid?
    ensures NormalizeStagingWebsite(t, NormalizeStagingWebsite(t, value).value.url).Invalid?
  {
    var first := UrlParts("http", "www.localhost", None, "/", "");
    EncodedLocalhostIsRefusedLater(t, value, hostname, UrlParts("http", "localhost", None, "/", ""));
    WwwLocalhostIsAHost();
    HostShape(t, "www.localhost");
    HttpIsFolded(t);
    assert "www.localhost" != "localhost" by {
      assert |"www.localhost"| == 13 && |"localhost"| == 9;
    }
    PartsFromSplit(t, www, "www.localhost", "www.localhost", "/");
    WebsiteReadBack(t, first, Render(first), "localhost");
  }
}
