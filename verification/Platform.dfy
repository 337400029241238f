/**
 The Unicode, IDNA, IP-address, country and URL tables the platform takes from its libraries. They are
 arbitrary functions; `Lawful` collects the facts about them that the proofs use.
 */
module Platform {
  import opened Common
  import opened Text

  datatype IpAddress = IpAddress(isPublic: bool, compressed: string)

  /** What `urlsplit` reads out of a text; `portValid` is false when reading the port raises. */
  datatype SplitUrl = SplitUrl(
    scheme: string, hasCredentials: bool, hostname: Option<string>,
    portValid: bool, port: Option<nat>, path: string, query: string)

  /** The pieces `urlunsplit` puts together; the fragment is always dropped. */
  datatype UrlParts = UrlParts(scheme: string, host: string, port: Option<nat>, path: string, query: string)

  datatype Tables = Tables(
    nfkc: string -> string,
    casefold: string -> string,
    idna: string -> Option<string>,
    parseIp: string -> Option<IpAddress>,
    isoCountry: string -> Option<string>,
    urlSplit: string -> Option<SplitUrl>,
    websiteHostname: string -> Checked<Option<string>>)
  {
    ghost predicate NfkcLaw() {
      forall s :: nfkc(Collapse(nfkc(s))) == Collapse(nfkc(s))
    }

    ghost predicate CasefoldLaw() {
      && (forall s :: HostText(s) ==> casefold(s) == s)
      && (forall s :: !HasMarkup(s) ==> !HasMarkup(casefold(s)))
    }

    ghost predicate IdnaLaw() {
      forall h :: ValidHost(h) ==> idna(h) == Some(h)
    }

    /** A literal is written in digits, colons and dots, reads back as itself, and in IPv4 has one spelling. */
    ghost predicate LiteralLaw() {
      forall h :: parseIp(h).Some? ==>
        var text := parseIp(h).value.compressed;
        && LiteralText(text) && text != "" && text[|text| - 1] != '.'
        && parseIp(text) == parseIp(h)
        && (':' !in h ==> text == h)
    }

    ghost predicate CountryLaw() {
      forall s :: isoCountry(s).Some? ==>
        var code := isoCountry(s).value;
        isoCountry(code) == Some(code) && |code| == 2 && 'A' <= code[0] <= 'Z' && 'A' <= code[1] <= 'Z'
    }

    /** A split text with a host yields a path and query fit for `Render`, and no markup of its own. */
    ghost predicate SplitLaw() {
      forall w :: urlSplit(w).Some? && urlSplit(w).value.hostname.Some? ==>
        var split := urlSplit(w).value;
        && PathQuery(split.path, split.query) && ValidPort(split.port)
        && (!HasMarkup(w) ==> !HasMarkup(split.path) && !HasMarkup(split.query))
    }

    /** Splitting a rendered URL gives its parts back, less the outer whitespace `strip` removes first. */
    ghost predicate RoundTripLaw() {
      forall parts :: WellFormed(parts) ==>
        urlSplit(Strip(Render(parts))) == Some(SplitUrl(
          parts.scheme, false, Some(parts.host), true, parts.port, Trim(parts).path, Trim(parts).query))
    }

    ghost predicate Lawful() {
      NfkcLaw() && CasefoldLaw() && IdnaLaw() && LiteralLaw() && CountryLaw() && SplitLaw() && RoundTripLaw()
    }

    predicate IsLiteral(host: string) {
      parseIp(host).Some? && parseIp(host).value.compressed == host
    }

    predicate WellFormed(parts: UrlParts) {
      && parts.scheme in {"http", "https"}
      && (ValidHost(parts.host) || IsLiteral(parts.host))
      && ValidPort(parts.port) && PathQuery(parts.path, parts.query)
    }
  }

  predicate HostText(s: string) {
    forall c :: c in s ==> 'a' <= c <= 'z' || '0' <= c <= '9' || c == '-' || c == '.' || c == ':'
  }

  predicate LiteralText(s: string) {
    forall c :: c in s ==> 'a' <= c <= 'f' || '0' <= c <= '9' || c == '.' || c == ':'
  }

  predicate Alphanumeric(c: char) {
    'a' <= c <= 'z' || '0' <= c <= '9'
  }

  /** One host label: lower-case letters, digits and inner hyphens, at most 63 characters. */
  predicate ValidLabel(part: string) {
    && 0 < |part| <= 63
    && Alphanumeric(part[0]) && Alphanumeric(part[|part| - 1])
    && forall c :: c in part ==> Alphanumeric(c) || c == '-'
  }

  /** `host.split(".")` */
  function Labels(host: string): seq<string> {
    if |host| == 0 then [""]
    else
      var rest := Labels(host[1..]);
      if host[0] == '.' then [""] + rest else [[host[0]] + rest[0]] + rest[1..]
  }

  predicate ValidHost(host: string) {
    0 < |host| <= 253 && forall part :: part in Labels(host) ==> ValidLabel(part)
  }

  /** What `urlsplit` leaves in a path and a query: the separators and the control characters it removes are gone. */
  predicate PathQuery(path: string, query: string) {
    && (path == "" || path[0] == '/')
    && '?' !in path
    && forall c :: c in path + query ==> c != '#' && c != '\t' && c != '\r' && c != '\n'
  }

  predicate ValidPort(port: Option<nat>) {
    port.Some? ==> port.value < 65536
  }

  function Decimal(n: nat): string {
    if n < 10 then [['0', '1', '2', '3', '4', '5', '6', '7', '8', '9'][n]] else Decimal(n / 10) + Decimal(n % 10)
  }

  function Bracketed(host: string): string {
    if ':' in host then "[" + host + "]" else host
  }

  function Netloc(host: string, port: Option<nat>): string {
    Bracketed(host) + if port.Some? then ":" + Decimal(port.value) else ""
  }

  /** `urlunsplit` */
  function Render(parts: UrlParts): string {
    parts.scheme + "://" + Netloc(parts.host, parts.port) + parts.path
    + if parts.query == "" then "" else "?" + parts.query
  }

  /** The parts left when the rendered URL loses its outer whitespace. */
  function Trim(parts: UrlParts): UrlParts {
    if parts.query == "" then parts.(path := RStrip(parts.path)) else parts.(query := RStrip(parts.query))
  }

  /** `hostname.rstrip(".")` */
  function RStripDots(s: string): string {
    if |s| == 0 || s[|s| - 1] != '.' then s else RStripDots(s[..|s| - 1])
  }
}
