/** When two candidates have one identity key: the website's host and port, or the name and country, decide it alone. */
module IdentityKeys {
  import opened Common
  import opened Text
  import opened Platform
  import opened StagingNormalization
  import opened PlatformLaws

  /** A literal with a colon, which only IPv6 has, has two. */
  ghost predicate LiteralsHaveTwoColons(t: Tables) {
    forall h :: t.IsLiteral(h) && ':' in h ==> HasTwoColons(h)
  }

  predicate HasTwoColons(h: string) {
    exists i, j :: 0 <= i < j < |h| && h[i] == ':' && h[j] == ':'
  }

  /** The tables that keep every law keep this one too. */
  lemma LawfulTablesHaveTwoColons()
    ensures WithSplit(SmallTables()).Lawful() && LiteralsHaveTwoColons(WithSplit(SmallTables()))
  {
    LawfulTablesExist();
    forall h | WithSplit(SmallTables()).IsLiteral(h) && ':' in h
      ensures HasTwoColons(h)
    {
      assert h == "::1" && h[0] == ':' && h[1] == ':';
    }
  }

  // ----- Identities of websites ---------------------------------------------------------------------------

  /** What is left of a host without its `www.` is host text, and not empty. */
  lemma WithoutWwwShape(t: Tables, host: string)
    requires t.Lawful() && (ValidHost(host) || t.IsLiteral(host)) && LiteralsHaveTwoColons(t)
    ensures WithoutWww(host) != "" && HostText(WithoutWww(host))
    ensures ':' in WithoutWww(host) ==> HasTwoColons(WithoutWww(host))
  {
    HostShape(t, host);
    assert forall c :: c in WithoutWww(host) ==> c in host;
    if "www." <= host {
      assert host[0] == 'w' && host[3] == '.' && host[0] in host;
      assert RStripDots(host) == host;
      if ValidHost(host) {
        ValidHostShape(host);
      }
    } else if ':' in host && ValidHost(host) {
      ValidHostShape(host);
    }
  }

  lemma DigitsHaveNoColon(n: nat)
    ensures ':' !in Decimal(n)
  {
    DecimalShape(n);
  }

  /** A bare host is never the host and port of another. */
  lemma BareIsNoNetloc(host: string, other: string, port: nat)
    requires HostText(host) && HostText(other) && other != "" && (':' in host ==> HasTwoColons(host))
    ensures host != Netloc(other, Some(port))
  {
    NetlocShows(other, Some(port));
    DigitsHaveNoColon(port);
    var netloc := Netloc(other, Some(port));
    if ':' in other {
      assert netloc[0] == '[';
      assert host != "" ==> host[0] in host;
    } else {
      var shown := other + (":" + Decimal(port));
      assert netloc == shown && shown[|other|] == ':';
      OneColonOnly(other, Decimal(port));
    }
  }

  lemma OneColonOnly(front: string, digits: string)
    requires ':' !in front && ':' !in digits
    ensures !HasTwoColons(front + (":" + digits))
  {
    var text := front + (":" + digits);
    forall i | 0 <= i < |text| && i != |front|
      ensures text[i] != ':'
    {
      assert i < |front| ==> text[i] in front;
      assert i > |front| ==> text[i] == digits[i - |front| - 1] && text[i] in digits;
    }
  }

  /** Two websites have one identity exactly when, `www.` and the scheme's own port aside, host and port agree. */
  lemma SameSiteExactlyWhen(t: Tables, p: UrlParts, q: UrlParts)
    requires t.Lawful() && t.WellFormed(p) && t.WellFormed(q) && LiteralsHaveTwoColons(t)
    ensures SiteIdentity(p) == SiteIdentity(q) <==>
      && WithoutWww(p.host) == WithoutWww(q.host)
      && IdentityPort(p.scheme, p.port) == IdentityPort(q.scheme, q.port)
  {
    WithoutWwwShape(t, p.host);
    WithoutWwwShape(t, q.host);
    IdentityShows(p);
    IdentityShows(q);
    var (a, b) := (WithoutWww(p.host), WithoutWww(q.host));
    match (IdentityPort(p.scheme, p.port), IdentityPort(q.scheme, q.port))
    case (None, None) =>
    case (Some(m), Some(n)) =>
      if SiteIdentity(p) == SiteIdentity(q) {
        NetlocIsDetermined(a, Some(m), b, Some(n));
      }
    case (None, Some(n)) => BareIsNoNetloc(a, b, n);
    case (Some(m), None) => BareIsNoNetloc(b, a, m);
  }

  lemma IdentityShows(parts: UrlParts)
    ensures SiteIdentity(parts) ==
      match IdentityPort(parts.scheme, parts.port)
      case Some(port) => Netloc(WithoutWww(parts.host), Some(port))
      case None => WithoutWww(parts.host)
  {
  }

  /** The port that identifies a website is its own unless it is the one its scheme implies. */
  lemma ImpliedPortIsDropped(scheme: string, port: Option<nat>)
    ensures IdentityPort(scheme, port) == None <==>
      port == None || (scheme == "http" && port == Some(80)) || (scheme == "https" && port == Some(443))
    ensures IdentityPort(scheme, port).Some? ==> IdentityPort(scheme, port) == port
  {
  }

  // ----- Identity keys --------------------------------------------------------------------------------------

  lemma WebsiteKeysAgree(a: string, b: string)
    ensures "website:" + a == "website:" + b <==> a == b
  {
    assert ("website:" + a)[8..] == a && ("website:" + b)[8..] == b;
  }

  lemma NameKeysAgree(name: string, code: string, other: string, otherCode: string)
    requires |code| == 2 && |otherCode| == 2
    ensures "name_country:" + name + "|" + code == "name_country:" + other + "|" + otherCode <==>
      name == other && code == otherCode
  {
    var (x, y) := ("name_country:" + name + "|" + code, "name_country:" + other + "|" + otherCode);
    if x == y {
      assert x[|x| - 2..] == code && y[|y| - 2..] == otherCode;
      assert x[13..|x| - 3] == name && y[13..|y| - 3] == other;
    }
  }

  lemma KindsDiffer(a: string, name: string, code: string)
    ensures "website:" + a != "name_country:" + name + "|" + code
  {
    assert ("website:" + a)[0] == 'w' && ("name_country:" + name + "|" + code)[0] == 'n';
  }

  /**
   Two normalised candidates have one key exactly when both have a website of one identity, or neither has one and
   their folded names and their countries are the same.
   */
  lemma SameKeyExactlyWhen(t: Tables, a: Normalized, b: Normalized)
    requires t.Lawful() && NormalForm(t, a) && NormalForm(t, b)
    ensures a.identityKey == b.identityKey <==>
      if a.website.Some? then b.website.Some? && a.websiteIdentity == b.websiteIdentity
      else b.website.None? && a.normalizedName == b.normalizedName && a.countryCode == b.countryCode
  {
    if a.website.Some? && b.website.Some? {
      WebsiteKeysAgree(a.websiteIdentity.value, b.websiteIdentity.value);
    } else if a.website.Some? {
      KindsDiffer(a.websiteIdentity.value, b.normalizedName.value, b.countryCode.value);
    } else if b.website.Some? {
      KindsDiffer(b.websiteIdentity.value, a.normalizedName.value, a.countryCode.value);
    } else {
      assert t.isoCountry(a.countryCode.value).Some? && t.isoCountry(b.countryCode.value).Some?;
      NameKeysAgree(a.normalizedName.value, a.countryCode.value, b.normalizedName.value, b.countryCode.value);
    }
  }

  // ----- What an accepted candidate keeps of its input ------------------------------------------------------

  /**
   The website of an accepted candidate is the one given: its scheme folded, its host folded, freed of trailing dots and
   encoded, or compressed if it is a literal, with the port, path and query it had.
   */
  lemma WebsiteKeepsItsParts(t: Tables, value: string)
    requires NormalizeStagingWebsite(t, value).Valid?
    ensures t.urlSplit(Strip(value)).Some? && t.urlSplit(Strip(value)).value.hostname.Some?
    ensures var split := t.urlSplit(Strip(value)).value;
      var hostname := t.casefold(RStripDots(split.hostname.value));
      var host := if t.parseIp(hostname).Some? then Some(t.parseIp(hostname).value.compressed) else t.idna(hostname);
      && host.Some? && hostname != "localhost" && !split.hasCredentials
      && (t.parseIp(hostname).Some? ==> t.parseIp(hostname).value.isPublic)
      && NormalizeStagingWebsite(t, value) ==
         var parts := UrlParts(t.casefold(split.scheme), host.value, split.port, split.path, split.query);
         Valid(Site(Render(parts), SiteIdentity(parts)))
  {
  }

  /** An accepted candidate has the name given, after NFKC and collapsed, its folded form, and the country's code. */
  lemma CandidateKeepsItsFields(t: Tables, name: Option<string>, website: Option<string>, countryCode: Option<string>)
    requires NormalizeCandidateIdentity(t, name, website, countryCode).Valid?
    ensures var n := NormalizeCandidateIdentity(t, name, website, countryCode).value;
      && (n.name.Some? <==> name.Some? && Collapse(t.nfkc(name.value)) != "")
      && (n.name.Some? ==> n.name.value == Collapse(t.nfkc(name.value)))
      && (n.normalizedName.Some? <==> n.name.Some?)
      && (n.name.Some? ==> n.normalizedName.value == t.casefold(n.name.value))
      && n.countryCode == (if countryCode.Some? then t.isoCountry(countryCode.value) else None)
      && (website.Some? <==> n.website.Some?)
      && (website.Some? ==>
          n.websiteIdentity.Some?
          && NormalizeStagingWebsite(t, website.value) == Valid(Site(n.website.value, n.websiteIdentity.value)))
  {
  }
}
