/**
 The laws assumed of the platform's tables hold together: a rendered URL determines the parts it was rendered
 from, so tables that split it back exist whatever the other tables are, and lawful tables exist outright.
 */
module PlatformLaws {
  import opened Common
  import opened Text
  import opened Platform
  import opened StagingNormalization

  // ----- A rendered URL determines its parts ---------------------------------------------------------

  /** Two ways of reading a text as a part without stop characters and a rest that opens with one are the same way. */
  lemma SplitOnce(a: string, r: string, b: string, q: string, stops: set<char>)
    requires a + r == b + q
    requires (forall c :: c in a ==> c !in stops) && (forall c :: c in b ==> c !in stops)
    requires (r == "" || r[0] in stops) && (q == "" || q[0] in stops)
    ensures a == b && r == q
  {
    NoShorter(a, r, b, q, stops);
    NoShorter(b, q, a, r, stops);
    assert a == (a + r)[..|a|] && b == (b + q)[..|b|];
    assert r == (a + r)[|a|..] && q == (b + q)[|b|..];
  }

  lemma NoShorter(a: string, r: string, b: string, q: string, stops: set<char>)
    requires a + r == b + q
    requires (forall c :: c in b ==> c !in stops) && (r == "" || r[0] in stops)
    ensures |a| >= |b|
  {
    var all := a + r;
    assert r != "" ==> |a| < |all| && all[|a|] == r[0];
    assert forall i :: 0 <= i < |b| ==> all[i] == b[i] && b[i] in b;
  }

  lemma {:induction false} DecimalIsInjective(m: nat, n: nat)
    requires Decimal(m) == Decimal(n)
    ensures m == n
  {
    if m >= 10 && n >= 10 {
      DecimalSplits(m);
      DecimalSplits(n);
      assert Decimal(m)[..|Decimal(m)| - 1] == Decimal(n)[..|Decimal(n)| - 1];
      DecimalIsInjective(m / 10, n / 10);
    } else if m >= 10 {
      DecimalSplits(m);
      DecimalShape(m / 10);
    } else if n >= 10 {
      DecimalSplits(n);
      DecimalShape(n / 10);
    }
  }

  lemma DecimalSplits(n: nat)
    requires n >= 10
    ensures var text := Decimal(n);
      |text| > 0 && text[..|text| - 1] == Decimal(n / 10) && [text[|text| - 1]] == Decimal(n % 10)
  {
  }

  function PortSuffix(port: Option<nat>): string {
    if port.Some? then ":" + Decimal(port.value) else ""
  }

  lemma PortIsDetermined(p: Option<nat>, q: Option<nat>)
    requires PortSuffix(p) == PortSuffix(q)
    ensures p == q
  {
    if p.Some? && q.Some? {
      assert PortSuffix(p)[1..] == Decimal(p.value) && PortSuffix(q)[1..] == Decimal(q.value);
      DecimalIsInjective(p.value, q.value);
    }
  }

  lemma NetlocIsDetermined(host: string, port: Option<nat>, other: string, otherPort: Option<nat>)
    requires host != "" && HostText(host) && other != "" && HostText(other)
    requires Netloc(host, port) == Netloc(other, otherPort)
    ensures host == other && port == otherPort
  {
    NetlocShows(host, port);
    NetlocShows(other, otherPort);
    if ':' in host {
      BracketedIsDetermined(host, port, other, otherPort);
    } else {
      SplitOnce(host, PortSuffix(port), other, PortSuffix(otherPort), {':'});
    }
    PortIsDetermined(port, otherPort);
  }

  /** A netloc opens with a bracket exactly when its host has a colon, and is the host and the port otherwise. */
  lemma NetlocShows(host: string, port: Option<nat>)
    requires host != "" && HostText(host)
    ensures Netloc(host, port) != "" && (Netloc(host, port)[0] == '[' <==> ':' in host)
    ensures Netloc(host, port) == if ':' in host then "[" + (host + ("]" + PortSuffix(port)))
                                  else host + PortSuffix(port)
  {
    if ':' in host {
      Regroup("[", host, "]", PortSuffix(port));
    } else {
      assert (host + PortSuffix(port))[0] == host[0] && host[0] in host;
    }
  }

  lemma Regroup(a: string, b: string, c: string, d: string)
    ensures a + b + c + d == a + (b + (c + d))
  {
  }

  lemma BracketedIsDetermined(host: string, port: Option<nat>, other: string, otherPort: Option<nat>)
    requires HostText(host) && HostText(other)
    requires "[" + (host + ("]" + PortSuffix(port))) == "[" + (other + ("]" + PortSuffix(otherPort)))
    ensures host == other && PortSuffix(port) == PortSuffix(otherPort)
  {
    var a, b := host + ("]" + PortSuffix(port)), other + ("]" + PortSuffix(otherPort));
    assert ("[" + a)[1..] == a && ("[" + b)[1..] == b;
    SplitOnce(host, "]" + PortSuffix(port), other, "]" + PortSuffix(otherPort), {']'});
    assert ("]" + PortSuffix(port))[1..] == PortSuffix(port);
    assert ("]" + PortSuffix(otherPort))[1..] == PortSuffix(otherPort);
  }

  /** What follows the host in a rendered URL that was stripped. */
  function Rest(parts: UrlParts): string {
    if parts.query == "" then RStrip(parts.path) else parts.path + ("?" + RStrip(parts.query))
  }

  lemma RestIsDetermined(p: UrlParts, q: UrlParts)
    requires '?' !in p.path && '?' !in q.path && Rest(p) == Rest(q)
    ensures Trim(p).path == Trim(q).path && Trim(p).query == Trim(q).query
  {
    RStripShape(p.path);
    RStripShape(q.path);
    if p.query != "" && q.query != "" {
      SplitOnce(p.path, "?" + RStrip(p.query), q.path, "?" + RStrip(q.query), {'?'});
      assert ("?" + RStrip(p.query))[1..] == RStrip(p.query) && ("?" + RStrip(q.query))[1..] == RStrip(q.query);
    } else {
      RestMarksTheQuery(p);
      RestMarksTheQuery(q);
    }
  }

  lemma RestMarksTheQuery(parts: UrlParts)
    requires '?' !in parts.path
    ensures '?' in Rest(parts) <==> parts.query != ""
  {
    RStripShape(parts.path);
    assert ("?" + RStrip(parts.query))[0] == '?';
    assert forall c :: c in RStrip(parts.path) ==> c in parts.path;
  }

  lemma RestOpens(t: Tables, parts: UrlParts)
    requires t.WellFormed(parts)
    ensures Rest(parts) == "" || Rest(parts)[0] in {'/', '?'}
  {
    RStripShape(parts.path);
  }

  lemma StrippedRender(t: Tables, parts: UrlParts)
    requires t.LiteralLaw() && t.WellFormed(parts)
    ensures Strip(Render(parts)) == parts.scheme + ("://" + (Netloc(parts.host, parts.port) + Rest(parts)))
  {
    WellFormedHost(t, parts);
    NetlocText(parts.host, parts.port);
    StrippedText(parts, parts.scheme + "://" + Netloc(parts.host, parts.port));
  }

  lemma StrippedText(parts: UrlParts, front: string)
    requires front == parts.scheme + "://" + Netloc(parts.host, parts.port)
    requires parts.scheme in {"http", "https"} && !IsSpace(front[|front| - 1])
    ensures Strip(Render(parts)) == parts.scheme + ("://" + (Netloc(parts.host, parts.port) + Rest(parts)))
  {
    var url := Render(parts);
    assert url[0] == 'h' && LStrip(url) == url;
    if parts.query == "" {
      assert url == front + parts.path;
      RStripKeepsFront(front, parts.path);
      Regroup(parts.scheme, "://", Netloc(parts.host, parts.port), RStrip(parts.path));
    } else {
      var before := front + parts.path + "?";
      assert url == before + parts.query;
      RStripKeepsFront(before, parts.query);
      Regroup(front, parts.path, "?", RStrip(parts.query));
      Regroup(parts.scheme, "://", Netloc(parts.host, parts.port), parts.path + ("?" + RStrip(parts.query)));
    }
  }

  lemma WellFormedHost(t: Tables, parts: UrlParts)
    requires t.LiteralLaw() && t.WellFormed(parts)
    ensures parts.host != "" && HostText(parts.host) && !IsSpace(parts.host[|parts.host| - 1])
  {
    if ValidHost(parts.host) {
      ValidHostShape(parts.host);
    } else {
      assert LiteralText(parts.host) && parts.host[|parts.host| - 1] in parts.host;
    }
  }

  lemma NetlocCharacters(host: string, port: Option<nat>)
    requires HostText(host)
    ensures forall c :: c in Netloc(host, port) ==> c !in {'/', '?'}
  {
    if port.Some? {
      DecimalShape(port.value);
    }
  }

  lemma SchemeIsDetermined(scheme: string, rest: string, other: string, otherRest: string)
    requires scheme in {"http", "https"} && other in {"http", "https"}
    requires scheme + ("://" + rest) == other + ("://" + otherRest)
    ensures scheme == other && rest == otherRest
  {
    SplitOnce(scheme, "://" + rest, other, "://" + otherRest, {':'});
    assert ("://" + rest)[3..] == rest && ("://" + otherRest)[3..] == otherRest;
  }

  /** The parts are rendered as the text, once it is stripped. */
  predicate Renders(t: Tables, w: string, parts: UrlParts) {
    t.WellFormed(parts) && Strip(Render(parts)) == w
  }

  /** A rendered and stripped URL has one reading: scheme, host, port and the trimmed path and query. */
  lemma RenderDeterminesParts(t: Tables, w: string, p: UrlParts, q: UrlParts)
    requires t.LiteralLaw() && Renders(t, w, p) && Renders(t, w, q)
    ensures Trim(p) == Trim(q)
  {
    StrippedRender(t, p);
    StrippedRender(t, q);
    var atP, atQ := Netloc(p.host, p.port), Netloc(q.host, q.port);
    SchemeIsDetermined(p.scheme, atP + Rest(p), q.scheme, atQ + Rest(q));
    WellFormedHost(t, p);
    WellFormedHost(t, q);
    NetlocCharacters(p.host, p.port);
    NetlocCharacters(q.host, q.port);
    RestOpens(t, p);
    RestOpens(t, q);
    SplitOnce(atP, Rest(p), atQ, Rest(q), {'/', '?'});
    NetlocIsDetermined(p.host, p.port, q.host, q.port);
    RestIsDetermined(p, q);
  }

  // ----- Tables that split it back ---------------------------------------------------------------------

  function SplitFrom(parts: UrlParts): SplitUrl {
    SplitUrl(parts.scheme, false, Some(parts.host), true, parts.port, Trim(parts).path, Trim(parts).query)
  }

  ghost function SplitOf(t: Tables, w: string): Option<SplitUrl> {
    if exists parts :: Renders(t, w, parts) then
      var parts :| Renders(t, w, parts);
      Some(SplitFrom(parts))
    else None
  }

  /** The tables with a splitter that reads rendered URLs back and nothing else. */
  ghost function WithSplit(t: Tables): Tables {
    t.(urlSplit := w => SplitOf(t, w))
  }

  lemma SplitReads(t: Tables, w: string) returns (parts: UrlParts)
    requires SplitOf(t, w).Some?
    ensures Renders(t, w, parts) && SplitOf(t, w) == Some(SplitFrom(parts))
  {
    parts :| Renders(t, w, parts) && SplitOf(t, w) == Some(SplitFrom(parts));
  }

  lemma SplitsRendered(t: Tables, w: string, parts: UrlParts)
    requires t.LiteralLaw() && Renders(t, w, parts)
    ensures SplitOf(t, w) == Some(SplitFrom(parts))
  {
    var chosen := SplitReads(t, w);
    RenderDeterminesParts(t, w, parts, chosen);
  }

  lemma SplitIsClean(t: Tables, w: string)
    requires t.LiteralLaw() && SplitOf(t, w).Some?
    ensures var split := SplitOf(t, w).value;
      && PathQuery(split.path, split.query) && ValidPort(split.port)
      && (!HasMarkup(w) ==> !HasMarkup(split.path) && !HasMarkup(split.query))
  {
    var parts := SplitReads(t, w);
    TrimKeepsForm(t, parts);
    StrippedRender(t, parts);
    assert Rest(parts) == Trim(parts).path + if parts.query == "" then "" else "?" + Trim(parts).query;
    assert forall c :: c in Trim(parts).path || c in Trim(parts).query ==> c in Rest(parts);
    assert forall c :: c in Rest(parts) ==> c in w;
  }

  /** Whatever the other tables are, if each keeps its own law there is a splitter that makes all laws hold. */
  lemma SplitterExists(t: Tables)
    requires t.NfkcLaw() && t.CasefoldLaw() && t.IdnaLaw() && t.LiteralLaw() && t.CountryLaw()
    ensures WithSplit(t).Lawful()
  {
    var made := WithSplit(t);
    assert made.NfkcLaw() && made.CasefoldLaw() && made.IdnaLaw() && made.LiteralLaw() && made.CountryLaw();
    forall parts | made.WellFormed(parts)
      ensures made.urlSplit(Strip(Render(parts))) == Some(SplitUrl(
        parts.scheme, false, Some(parts.host), true, parts.port, Trim(parts).path, Trim(parts).query))
    {
      assert Renders(t, Strip(Render(parts)), parts);
      SplitsRendered(t, Strip(Render(parts)), parts);
    }
    forall w | made.urlSplit(w).Some?
      ensures var split := made.urlSplit(w).value;
        && PathQuery(split.path, split.query) && ValidPort(split.port)
        && (!HasMarkup(w) ==> !HasMarkup(split.path) && !HasMarkup(split.query))
    {
      SplitIsClean(t, w);
    }
    assert made.RoundTripLaw();
    assert made.SplitLaw();
  }

  /** Tables with one public literal, one private one and one country, that fold and encode nothing. */
  ghost function SmallTables(): Tables {
    Tables(
      s => s, s => s, h => Some(h),
      h => if h == "8.8.8.8" then Some(IpAddress(true, "8.8.8.8")) else if h == "::1" then Some(IpAddress(false, "::1"))
           else None,
      s => if s == "us" || s == "US" then Some("US") else None,
      _ => None, _ => Valid(None))
  }

  /** No premise of lawful tables is empty. */
  lemma LawfulTablesExist()
    ensures WithSplit(SmallTables()).Lawful()
  {
    var t := SmallTables();
    assert LiteralText("8.8.8.8") && LiteralText("::1");
    assert t.LiteralLaw();
    assert t.NfkcLaw() && t.CasefoldLaw() && t.IdnaLaw() && t.CountryLaw();
    SplitterExists(t);
  }
}
