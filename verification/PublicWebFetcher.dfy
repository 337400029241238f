/** The bounded fetcher of public web pages: verify every hop's host, pin its addresses, follow a few redirects. */
module PublicWebFetcher {
  import opened Common
  import opened Text
  import opened Platform
  import opened StagingNormalization

  datatype NetAddress = NetAddress(version: nat, value: nat)

  /** What a page answers, as far as the fetcher looks at it. `contentType` is the bare type, in lower case. */
  datatype Response = Response(
    status: int, location: Option<string>, contentType: string, looksLikeHtml: bool, decoded: Option<string>)

  datatype Reply = Responded(response: Response) | TooLarge | Retryable(reason: FailureReason) | Broken

  /**
   The network: `resolve` and `send` are told how many hops and calls were made before, so they may answer
   differently every time.
   */
  datatype Web = Web(
    tables: Tables,
    join: (string, string) -> string,
    parseAddress: string -> Option<NetAddress>,
    isPublic: NetAddress -> bool,
    resolve: (nat, string) -> Option<seq<string>>,
    send: (nat, string, string, NetAddress) -> Reply)

  datatype FetchError =
    | HostNotPublic | RedirectUnsafe | RedirectLimit | RequestFailed
    | ResponseTooLarge | ResponseNotHtml | ResponseDecodeFailed

  datatype FailureReason =
    | DnsFailure | ConnectTimeout | ReadTimeout | Timeout | TlsError | HttpAuthError | HttpRateLimit | HttpClientError
    | HttpServerError | ConnectionFailed | BodyTooLarge | InvalidUrl | RedirectFailed | UnknownFailure

  datatype FetchResult = FetchResult(
    finalUrl: string, text: Option<string>, contentType: Option<string>, error: Option<FetchError>,
    reason: Option<FailureReason>)

  datatype Call = Call(hop: nat, url: string, host: string, address: NetAddress)

  const MAX_ADDRESS_ATTEMPTS := 4

  // ----- URLs ----------------------------------------------------------------------------------------------

  /** The parts of a request URL; a blank text has none, and anything but a plain public-looking URL raises. */
  function RequestUrl(t: Tables, value: string): Checked<Option<UrlParts>> {
    if Strip(value) == "" then Valid(None)
    else match t.urlSplit(Strip(value))
      case None => Invalid
      case Some(split) =>
        var scheme := t.casefold(split.scheme);
        if scheme !in {"http", "https"} || split.hasCredentials || !split.portValid || split.hostname.None? then Invalid
        else match t.idna(RStripDots(split.hostname.value))
          case None => Invalid
          case Some(ascii) =>
            var host := t.casefold(ascii);
            if ValidHost(host) then Valid(Some(UrlParts(scheme, host, split.port, split.path, split.query)))
            else Invalid
  }

  function StripSlashes(path: string): string {
    if |path| == 0 || path[|path| - 1] != '/' then path else StripSlashes(path[..|path| - 1])
  }

  /** The URL an error may show: normalised, without its query and trailing slashes, or nothing. */
  function SafeErrorUrl(t: Tables, url: string): string {
    match RequestUrl(t, url)
    case Valid(Some(parts)) => Render(parts.(path := StripSlashes(parts.path), query := ""))
    case _ => ""
  }

  predicate EquivalentHost(t: Tables, candidate: string, allowed: string) {
    WithoutWww(t.casefold(candidate)) == WithoutWww(t.casefold(allowed))
  }

  function Fail(t: Tables, url: string, error: FetchError, reason: Option<FailureReason>): FetchResult {
    FetchResult(SafeErrorUrl(t, url), None, None, Some(error), reason)
  }

  // ----- Addresses -----------------------------------------------------------------------------------------

  predicate AddressBefore(a: NetAddress, b: NetAddress) {
    a.version < b.version || (a.version == b.version && a.value < b.value)
  }

  /** An ordered list of distinct addresses with one more. */
  function AddAddress(sorted: seq<NetAddress>, a: NetAddress): seq<NetAddress> {
    if |sorted| == 0 || AddressBefore(a, sorted[0]) then [a] + sorted
    else if sorted[0] == a then sorted
    else [sorted[0]] + AddAddress(sorted[1..], a)
  }

  /** `sorted(set(addresses))` */
  function OrderedAddresses(addresses: seq<NetAddress>): seq<NetAddress> {
    if |addresses| == 0 then []
    else AddAddress(OrderedAddresses(addresses[..|addresses| - 1]), addresses[|addresses| - 1])
  }

  function ParseAddresses(web: Web, names: seq<string>): Option<seq<NetAddress>> {
    if |names| == 0 then Some([])
    else match (ParseAddresses(web, names[..|names| - 1]), web.parseAddress(names[|names| - 1]))
      case (Some(front), Some(last)) => Some(front + [last])
      case _ => None
  }

  predicate AllPublic(web: Web, addresses: seq<NetAddress>) {
    forall a :: a in addresses ==> web.isPublic(a)
  }

  datatype Verdict = Refused(reason: Option<FailureReason>) | Pinned(host: string, addresses: seq<NetAddress>)

  function FirstAddresses(addresses: seq<NetAddress>): seq<NetAddress> {
    var ordered := OrderedAddresses(addresses);
    if |ordered| <= MAX_ADDRESS_ATTEMPTS then ordered else ordered[..MAX_ADDRESS_ATTEMPTS]
  }

  /** The host of a URL and the addresses it may be reached at, all of whose siblings are public too. */
  function VerifiedAddresses(web: Web, hop: nat, url: string): Verdict {
    match RequestUrl(web.tables, url)
    case Invalid => Refused(Some(InvalidUrl))
    case Valid(None) => Refused(Some(InvalidUrl))
    case Valid(Some(parts)) =>
      if web.tables.casefold(parts.host) == "localhost" then Refused(None)
      else match web.parseAddress(parts.host)
        case Some(address) => if web.isPublic(address) then Pinned(parts.host, [address]) else Refused(None)
        case None =>
          match web.resolve(hop, parts.host)
          case None => Refused(Some(DnsFailure))
          case Some(names) =>
            match ParseAddresses(web, names)
            case None => Refused(Some(DnsFailure))
            case Some(addresses) =>
              if addresses == [] then Refused(Some(DnsFailure))
              else if !AllPublic(web, addresses) then Refused(None)
              else Pinned(parts.host, FirstAddresses(addresses))
  }

  // ----- One hop ---------------------------------------------------------------------------------------------

  /** What the attempts at a hop's addresses end in: a response, or a result for the caller. */
  datatype Attempted = Answered(response: Response) | Gave(result: FetchResult)

  /** Tries the addresses in turn; a retryable failure moves on to the next one. */
  function TryAddresses(web: Web, hop: nat, url: string, host: string, addresses: seq<NetAddress>, calls: seq<Call>,
                        reason: Option<FailureReason>): (Attempted, seq<Call>)
    decreases |addresses|
  {
    if |addresses| == 0 then
      (Gave(Fail(web.tables, url, RequestFailed, Some(if reason.Some? then reason.value else UnknownFailure))), calls)
    else
      var made := calls + [Call(hop, url, host, addresses[0])];
      match web.send(|calls|, url, host, addresses[0])
      case Responded(response) => (Answered(response), made)
      case TooLarge => (Gave(Fail(web.tables, url, FetchError.ResponseTooLarge, Some(BodyTooLarge))), made)
      case Broken => (Gave(Fail(web.tables, url, RequestFailed, Some(UnknownFailure))), made)
      case Retryable(why) => TryAddresses(web, hop, url, host, addresses[1..], made, Some(why))
  }

  function HttpFailureReason(status: int): FailureReason {
    if status in {401, 403} then HttpAuthError
    else if status == 408 then ReadTimeout
    else if status == 429 then HttpRateLimit
    else if 400 <= status < 500 then HttpClientError
    else if 500 <= status < 600 then HttpServerError
    else UnknownFailure
  }

  datatype Next = Finishes(result: FetchResult) | Redirects(url: string)

  function ReadPage(t: Tables, url: string, r: Response): FetchResult {
    if r.contentType != ""
      && r.contentType !in {"text/html", "application/xhtml+xml"} then Fail(t, url, ResponseNotHtml, None)
    else if r.contentType == "" && !r.looksLikeHtml then Fail(t, url, ResponseNotHtml, None)
    else match r.decoded
      case None => Fail(t, url, ResponseDecodeFailed, None)
      case Some(text) =>
        FetchResult(url, Some(text), if r.contentType == "" then None else Some(r.contentType), None, None)
  }

  /** What a response means: a page, a failure, or a redirect that may be followed. */
  function ReadResponse(web: Web, maxRedirects: nat, allowed: Option<string>, url: string, redirects: nat, r: Response):
    (next: Next)
    ensures next.Redirects? ==> redirects < maxRedirects
  {
    if r.status in {301, 302, 303, 307, 308} then
      if r.location.None?
        || r.location.value == "" then Finishes(Fail(web.tables, url, RequestFailed, Some(RedirectFailed)))
      else if redirects >= maxRedirects then Finishes(Fail(web.tables, url, RedirectLimit, None))
      else match RequestUrl(web.tables, web.join(url, r.location.value))
        case Valid(Some(parts)) =>
          if allowed.Some? && !EquivalentHost(web.tables, parts.host, allowed.value) then
            Finishes(Fail(web.tables, url, RedirectUnsafe, None))
          else Redirects(Render(parts))
        case _ => Finishes(Fail(web.tables, url, RedirectUnsafe, None))
    else if r.status < 200
      || r.status >= 300 then Finishes(Fail(web.tables, url, RequestFailed, Some(HttpFailureReason(r.status))))
    else Finishes(ReadPage(web.tables, url, r))
  }

  datatype Hop = Ends(result: FetchResult) | Goes(url: string)

  /** One hop: verify the host, try its addresses, read the response. */
  function MakeHop(web: Web, maxRedirects: nat, allowed: Option<string>, url: string, redirects: nat, calls: seq<Call>):
    (made: (Hop, seq<Call>))
    ensures made.0.Goes? ==> redirects < maxRedirects
  {
    match VerifiedAddresses(web, redirects, url)
    case Refused(reason) =>
      (Ends(Fail(web.tables, SafeErrorUrl(web.tables, url), if redirects > 0 then RedirectUnsafe else HostNotPublic,
                 reason)),
       calls)
    case Pinned(host, addresses) =>
      var (attempted, made) := TryAddresses(web, redirects, url, host, addresses, calls, None);
      match attempted
      case Gave(result) => (Ends(result), made)
      case Answered(response) =>
        match ReadResponse(web, maxRedirects, allowed, url, redirects, response)
        case Finishes(result) => (Ends(result), made)
        case Redirects(next) => (Goes(next), made)
  }

  // ----- The chain -------------------------------------------------------------------------------------------

  /** A finished fetch: its result, the URLs visited in order and the transport calls made. */
  datatype Journey = Journey(result: FetchResult, visited: seq<string>, calls: seq<Call>)

  function Follow(web: Web, maxRedirects: nat, allowed: Option<string>, url: string, visited: seq<string>,
                  calls: seq<Call>): Journey
    requires |visited| <= maxRedirects
    decreases maxRedirects - |visited|
  {
    if url in visited then Journey(Fail(web.tables, url, RedirectLimit, None), visited, calls)
    else
      var (hop, made) := MakeHop(web, maxRedirects, allowed, url, |visited|, calls);
      match hop
      case Ends(result) => Journey(result, visited + [url], made)
      case Goes(next) => Follow(web, maxRedirects, allowed, next, visited + [url], made)
  }

  function Fetch(web: Web, maxRedirects: nat, allowed: Option<string>, url: string): Journey {
    match RequestUrl(web.tables, url)
    case Valid(Some(parts)) => Follow(web, maxRedirects, allowed, Render(parts), [], [])
    case _ => Journey(Fail(web.tables, SafeErrorUrl(web.tables, url), HostNotPublic, Some(InvalidUrl)), [], [])
  }

  class BoundedPublicWebFetcher {
    const web: Web
    const maxRedirects: nat

    constructor (web: Web, maxRedirects: nat)
      ensures this.web == web && this.maxRedirects == maxRedirects
    {
      this.web, this.maxRedirects := web, maxRedirects;
    }

    method Run(url: string, allowed: Option<string>) returns (r: FetchResult, ghost hops: seq<string>, calls: seq<Call>)
      ensures var journey := Fetch(web, maxRedirects, allowed, url); r == journey.result && calls == journey.calls
      ensures hops == Fetch(web, maxRedirects, allowed, url).visited
    {
      hops, calls := [], [];
      var normalized := RequestUrl(web.tables, url);
      if normalized.Invalid? || normalized.value.None? {
        r := Fail(web.tables, SafeErrorUrl(web.tables, url), HostNotPublic, Some(InvalidUrl));
        return;
      }
      var current := Render(normalized.value.value);
      var redirects := 0;
      var visited: set<string> := {};
      while true
        invariant redirects == |hops| <= maxRedirects && forall u :: u in visited <==> u in hops
        invariant Follow(web, maxRedirects, allowed, current, hops, calls) == Fetch(web, maxRedirects, allowed, url)
        decreases maxRedirects - redirects
      {
        if current in visited {
          r := Fail(web.tables, current, RedirectLimit, None);
          return;
        }
        var verdict := VerifiedAddresses(web, redirects, current);
        visited := visited + {current};
        ghost var before := hops;
        hops := hops + [current];
        if verdict.Refused? {
          r := Fail(web.tables, SafeErrorUrl(web.tables, current),
                    if redirects > 0 then RedirectUnsafe else HostNotPublic, verdict.reason);
          return;
        }
        var attempted;
        attempted, calls := Try(redirects, current, verdict.host, verdict.addresses, calls);
        if attempted.Gave? {
          r := attempted.result;
          return;
        }
        var next := ReadResponse(web, maxRedirects, allowed, current, redirects, attempted.response);
        if next.Finishes? {
          r := next.result;
          return;
        }
        current := next.url;
        redirects := redirects + 1;
      }
    }

    method Try(hop: nat, url: string, host: string, addresses: seq<NetAddress>, before: seq<Call>)
      returns (attempted: Attempted, calls: seq<Call>)
      ensures (attempted, calls) == TryAddresses(web, hop, url, host, addresses, before, None)
    {
      calls := before;
      var reason: Option<FailureReason> := None;
      for i := 0 to |addresses|
        invariant TryAddresses(web, hop, url, host, addresses[i..], calls, reason)
          == TryAddresses(web, hop, url, host, addresses, before, None)
      {
        assert addresses[i..][1..] == addresses[i + 1..];
        var reply := web.send(|calls|, url, host, addresses[i]);
        calls := calls + [Call(hop, url, host, addresses[i])];
        match reply
        case Responded(response) => return Answered(response), calls;
        case TooLarge => return Gave(Fail(web.tables, url, FetchError.ResponseTooLarge, Some(BodyTooLarge))), calls;
        case Broken => return Gave(Fail(web.tables, url, RequestFailed, Some(UnknownFailure))), calls;
        case Retryable(why) => reason := Some(why);
      }
      attempted := Gave(Fail(web.tables, url, RequestFailed,
                             Some(if reason.Some? then reason.value else UnknownFailure)));
    }
  }

  // ----- Addresses are the resolved set, in order -------------------------------------------------------------

  ghost predicate Ascending(xs: seq<NetAddress>) {
    forall i, j :: 0 <= i < j < |xs| ==> AddressBefore(xs[i], xs[j])
  }

  lemma {:induction false} AddKeepsOrder(sorted: seq<NetAddress>, a: NetAddress)
    requires Ascending(sorted)
    ensures Ascending(AddAddress(sorted, a)) && forall x :: x in AddAddress(sorted, a) <==> x in sorted || x == a
  {
    if |sorted| != 0 && !AddressBefore(a, sorted[0]) && sorted[0] != a {
      AddKeepsOrder(sorted[1..], a);
      var rest := AddAddress(sorted[1..], a);
      assert forall j :: 0 <= j < |rest| ==> rest[j] in rest;
      assert sorted == [sorted[0]] + sorted[1..];
    }
  }

  /** Ordering addresses keeps exactly the set of them, each once and ascending. */
  lemma {:induction false} OrderedIsTheSet(addresses: seq<NetAddress>)
    ensures Ascending(OrderedAddresses(addresses))
    ensures forall x :: x in OrderedAddresses(addresses) <==> x in addresses
  {
    if |addresses| != 0 {
      var n := |addresses| - 1;
      OrderedIsTheSet(addresses[..n]);
      AddKeepsOrder(OrderedAddresses(addresses[..n]), addresses[n]);
      assert addresses == addresses[..n] + [addresses[n]];
    }
  }

  /** The addresses a host stands for during a hop: itself if it is a literal, what it resolves to otherwise. */
  function AddressesOf(web: Web, hop: nat, host: string): Option<seq<NetAddress>> {
    match web.parseAddress(host)
    case Some(address) => Some([address])
    case None => match web.resolve(hop, host) case None => None case Some(names) => ParseAddresses(web, names)
  }

  /** Every address the host stands for during the hop is public, and there is one. */
  predicate HostIsPublic(web: Web, hop: nat, host: string) {
    var addresses := AddressesOf(web, hop, host);
    addresses.Some? && addresses.value != [] && AllPublic(web, addresses.value)
  }

  /** A host is pinned only if its whole address set is public, and then to at most four addresses of that set. */
  lemma PinnedIsPublic(web: Web, hop: nat, url: string)
    requires VerifiedAddresses(web, hop, url).Pinned?
    ensures var verdict := VerifiedAddresses(web, hop, url);
      && RequestUrl(web.tables, url).Valid? && RequestUrl(web.tables, url).value.Some?
      && verdict.host == RequestUrl(web.tables, url).value.value.host
      && web.tables.casefold(verdict.host) != "localhost"
      && HostIsPublic(web, hop, verdict.host)
      && 0 < |verdict.addresses| <= MAX_ADDRESS_ATTEMPTS && Ascending(verdict.addresses)
      && forall a :: a in verdict.addresses ==> a in AddressesOf(web, hop, verdict.host).value
  {
    var verdict := VerifiedAddresses(web, hop, url);
    var addresses := AddressesOf(web, hop, verdict.host).value;
    if web.parseAddress(verdict.host).None? {
      FirstAreOfTheSet(addresses);
    }
  }

  lemma FirstAreOfTheSet(addresses: seq<NetAddress>)
    requires addresses != []
    ensures var first := FirstAddresses(addresses);
      && 0 < |first| <= MAX_ADDRESS_ATTEMPTS && Ascending(first)
      && forall a :: a in first ==> a in addresses
  {
    OrderedIsTheSet(addresses);
    assert addresses[0] in OrderedAddresses(addresses);
  }

  // ----- What every fetch keeps -----------------------------------------------------------------------------------

  /** A transport call made on behalf of a visited URL, to an address of its own, wholly public host. */
  predicate SafeCall(web: Web, visited: seq<string>, c: Call) {
    && c.hop < |visited| && c.url == visited[c.hop]
    && RequestUrl(web.tables, c.url).Valid? && RequestUrl(web.tables, c.url).value.Some?
    && c.host == RequestUrl(web.tables, c.url).value.value.host
    && HostIsPublic(web, c.hop, c.host) && c.address in AddressesOf(web, c.hop, c.host).value
  }

  predicate SafeCalls(web: Web, visited: seq<string>, calls: seq<Call>) {
    forall c :: c in calls ==> SafeCall(web, visited, c)
  }

  predicate DistinctUrls(visited: seq<string>) {
    forall i, j :: 0 <= i < j < |visited| ==> visited[i] != visited[j]
  }

  lemma {:induction false} TriesAreBounded(web: Web, hop: nat, url: string, host: string, addresses: seq<NetAddress>,
                                           calls: seq<Call>, reason: Option<FailureReason>)
    ensures var made := TryAddresses(web, hop, url, host, addresses, calls, reason).1;
      && |calls| <= |made| <= |calls| + |addresses|
      && forall c :: c in made ==>
         c in calls || (c.hop == hop && c.url == url && c.host == host && c.address in addresses)
    decreases |addresses|
  {
    if |addresses| != 0 {
      var made := calls + [Call(hop, url, host, addresses[0])];
      var reply := web.send(|calls|, url, host, addresses[0]);
      if reply.Retryable? {
        TriesAreBounded(web, hop, url, host, addresses[1..], made, Some(reply.reason));
        assert forall a :: a in addresses[1..] ==> a in addresses;
      }
    }
  }

  lemma HopIsSafe(web: Web, maxRedirects: nat, allowed: Option<string>, url: string, visited: seq<string>,
                  calls: seq<Call>)
    requires SafeCalls(web, visited, calls)
    ensures var made := MakeHop(web, maxRedirects, allowed, url, |visited|, calls).1;
      |made| <= |calls| + MAX_ADDRESS_ATTEMPTS && SafeCalls(web, visited + [url], made)
  {
    var extended := visited + [url];
    assert forall c :: c in calls ==> SafeCall(web, extended, c);
    match VerifiedAddresses(web, |visited|, url)
    case Refused(_) =>
    case Pinned(host, addresses) =>
      PinnedIsPublic(web, |visited|, url);
      TriesAreBounded(web, |visited|, url, host, addresses, calls, None);
  }

  /**
   Every fetch ends after at most maxRedirects + 1 hops and four transport calls for each, never visits a URL on
   two hops, and calls only addresses of a hop's own host, the whole address set of which was public.
   */
  lemma {:induction false} JourneysAreSafe(web: Web, maxRedirects: nat, allowed: Option<string>, url: string,
                                           visited: seq<string>, calls: seq<Call>)
    requires |visited| <= maxRedirects && DistinctUrls(visited) && SafeCalls(web, visited, calls)
    ensures var journey := Follow(web, maxRedirects, allowed, url, visited, calls);
      && |journey.visited| <= maxRedirects + 1 && DistinctUrls(journey.visited)
      && |journey.calls| <= |calls| + MAX_ADDRESS_ATTEMPTS * (maxRedirects + 1 - |visited|)
      && SafeCalls(web, journey.visited, journey.calls)
    decreases maxRedirects - |visited|
  {
    if url !in visited {
      HopIsSafe(web, maxRedirects, allowed, url, visited, calls);
      var (hop, made) := MakeHop(web, maxRedirects, allowed, url, |visited|, calls);
      if hop.Goes? {
        JourneysAreSafe(web, maxRedirects, allowed, hop.url, visited + [url], made);
      }
    }
  }

  lemma FetchIsSafe(web: Web, maxRedirects: nat, allowed: Option<string>, url: string)
    ensures var journey := Fetch(web, maxRedirects, allowed, url);
      && |journey.visited| <= maxRedirects + 1 && DistinctUrls(journey.visited)
      && |journey.calls| <= MAX_ADDRESS_ATTEMPTS * (maxRedirects + 1)
      && SafeCalls(web, journey.visited, journey.calls)
  {
    var normalized := RequestUrl(web.tables, url);
    if normalized.Valid? && normalized.value.Some? {
      JourneysAreSafe(web, maxRedirects, allowed, Render(normalized.value.value), [], []);
    }
  }

  // ----- Hosts along the chain ------------------------------------------------------------------------------------

  lemma RequestUrlShape(t: Tables, value: string)
    requires t.Lawful() && RequestUrl(t, value).Valid? && RequestUrl(t, value).value.Some?
    ensures t.WellFormed(RequestUrl(t, value).value.value) && ValidHost(RequestUrl(t, value).value.value.host)
  {
  }

  /** Reading a normalised URL again gives its own parts, less whitespace at the very end of it. */
  lemma RequestUrlReadsBack(t: Tables, parts: UrlParts)
    requires t.Lawful() && t.WellFormed(parts) && ValidHost(parts.host)
    ensures RequestUrl(t, Render(parts)) == Valid(Some(Trim(parts)))
  {
    RenderStrips(t, parts);
    HostShape(t, parts.host);
    assert HostText(parts.scheme);
  }

  /** The URL is normalised and its host is one a redirect may lead to. */
  predicate AllowedUrl(t: Tables, url: string, allowed: Option<string>) {
    && RequestUrl(t, url).Valid? && RequestUrl(t, url).value.Some?
    && (allowed.Some? ==> EquivalentHost(t, RequestUrl(t, url).value.value.host, allowed.value))
  }

  lemma RedirectIsAllowed(web: Web, maxRedirects: nat, allowed: Option<string>, url: string, redirects: nat,
                          calls: seq<Call>)
    requires web.tables.Lawful() && MakeHop(web, maxRedirects, allowed, url, redirects, calls).0.Goes?
    ensures AllowedUrl(web.tables, MakeHop(web, maxRedirects, allowed, url, redirects, calls).0.url, allowed)
  {
    var verdict := VerifiedAddresses(web, redirects, url);
    var response := TryAddresses(web, redirects, url, verdict.host, verdict.addresses, calls, None).0.response;
    var target := web.join(url, response.location.value);
    RequestUrlShape(web.tables, target);
    RequestUrlReadsBack(web.tables, RequestUrl(web.tables, target).value.value);
  }

  /** A page is given only for the URL of the last hop; an error never carries a page. */
  predicate PageOfLastHop(journey: Journey) {
    journey.result.text.Some? ==>
      journey.result.error.None? && journey.visited != []
        && journey.result.finalUrl == journey.visited[|journey.visited| - 1]
  }

  lemma {:induction false} TriesGiveNoPage(web: Web, hop: nat, url: string, host: string, addresses: seq<NetAddress>,
                                           calls: seq<Call>, reason: Option<FailureReason>)
    ensures var attempted := TryAddresses(web, hop, url, host, addresses, calls, reason).0;
      attempted.Gave? ==> attempted.result.text.None? && attempted.result.error.Some?
    decreases |addresses|
  {
    if |addresses| != 0 {
      var reply := web.send(|calls|, url, host, addresses[0]);
      if reply.Retryable? {
        TriesGiveNoPage(web, hop, url, host, addresses[1..], calls + [Call(hop, url, host, addresses[0])],
                        Some(reply.reason));
      }
    }
  }

  lemma HopGivesItsPage(web: Web, maxRedirects: nat, allowed: Option<string>, url: string, redirects: nat,
                        calls: seq<Call>)
    ensures var hop := MakeHop(web, maxRedirects, allowed, url, redirects, calls).0;
      hop.Ends? && hop.result.text.Some? ==> hop.result.error.None? && hop.result.finalUrl == url
  {
    var verdict := VerifiedAddresses(web, redirects, url);
    if verdict.Pinned? {
      TriesGiveNoPage(web, redirects, url, verdict.host, verdict.addresses, calls, None);
    }
  }

  /**
   Every hop after the first leads to a normalised URL whose host is equivalent to the allowed one when one is
   given, and a page is returned only for the last URL of the chain.
   */
  lemma {:induction false} JourneysStayAllowed(web: Web, maxRedirects: nat, allowed: Option<string>, url: string,
                                               visited: seq<string>, calls: seq<Call>)
    requires web.tables.Lawful() && |visited| <= maxRedirects
    requires visited != [] ==> AllowedUrl(web.tables, url, allowed)
    requires forall i :: 0 < i < |visited| ==> AllowedUrl(web.tables, visited[i], allowed)
    ensures var journey := Follow(web, maxRedirects, allowed, url, visited, calls);
      && (forall i :: 0 < i < |journey.visited| ==> AllowedUrl(web.tables, journey.visited[i], allowed))
      && PageOfLastHop(journey)
    decreases maxRedirects - |visited|
  {
    if url !in visited {
      var (hop, made) := MakeHop(web, maxRedirects, allowed, url, |visited|, calls);
      HopGivesItsPage(web, maxRedirects, allowed, url, |visited|, calls);
      if hop.Goes? {
        RedirectIsAllowed(web, maxRedirects, allowed, url, |visited|, calls);
        JourneysStayAllowed(web, maxRedirects, allowed, hop.url, visited + [url], made);
      }
    }
  }

  lemma FetchStaysAllowed(web: Web, maxRedirects: nat, allowed: Option<string>, url: string)
    requires web.tables.Lawful()
    ensures var journey := Fetch(web, maxRedirects, allowed, url);
      && (forall i :: 0 < i < |journey.visited| ==> AllowedUrl(web.tables, journey.visited[i], allowed))
      && PageOfLastHop(journey)
      && (journey.result.text.Some? ==>
          RequestUrl(web.tables, journey.result.finalUrl).Valid?
            && RequestUrl(web.tables, journey.result.finalUrl).value.Some?)
  {
    var normalized := RequestUrl(web.tables, url);
    if normalized.Valid? && normalized.value.Some? {
      RequestUrlShape(web.tables, url);
      RequestUrlReadsBack(web.tables, normalized.value.value);
      JourneysStayAllowed(web, maxRedirects, allowed, Render(normalized.value.value), [], []);
      FirstHop(web, maxRedirects, allowed, Render(normalized.value.value), [], []);
    }
  }

  lemma {:induction false} FirstHop(web: Web, maxRedirects: nat, allowed: Option<string>, url: string,
                                    visited: seq<string>, calls: seq<Call>)
    requires |visited| <= maxRedirects
    ensures var journey := Follow(web, maxRedirects, allowed, url, visited, calls);
      visited <= journey.visited && (visited == [] ==> journey.visited != [] && journey.visited[0] == url)
    decreases maxRedirects - |visited|
  {
    if url !in visited {
      var (hop, made) := MakeHop(web, maxRedirects, allowed, url, |visited|, calls);
      if hop.Goes? {
        FirstHop(web, maxRedirects, allowed, hop.url, visited + [url], made);
      }
    }
  }

  /** No URL that passes has a colon in its host: a host written as an IPv6 literal never does. */
  lemma NoColonInHost(t: Tables, value: string)
    requires RequestUrl(t, value).Valid? && RequestUrl(t, value).value.Some?
    ensures ':' !in RequestUrl(t, value).value.value.host
  {
    ValidHostShape(RequestUrl(t, value).value.value.host);
  }

  /** A URL whose host has a colon and is its own encoding, as ASCII text is, raises. */
  lemma ColonHostIsRefused(t: Tables, value: string, host: string)
    requires Strip(value) != "" && t.urlSplit(Strip(value)).Some?
    requires t.urlSplit(Strip(value)).value.hostname == Some(host)
    requires ':' in t.casefold(RStripDots(host)) && t.idna(RStripDots(host)) == Some(RStripDots(host))
    ensures RequestUrl(t, value).Invalid?
  {
    if ValidHost(t.casefold(RStripDots(host))) {
      ValidHostShape(t.casefold(RStripDots(host)));
      assert false;
    }
  }

  /** The first hop is the URL asked for, whatever hostname is allowed. */
  lemma FirstHopIsAsWritten(web: Web, maxRedirects: nat, allowed: Option<string>, url: string, parts: UrlParts)
    requires RequestUrl(web.tables, url) == Valid(Some(parts))
    ensures var journey := Fetch(web, maxRedirects, allowed, url);
      journey.visited != [] && journey.visited[0] == Render(parts)
  {
    FirstHop(web, maxRedirects, allowed, Render(parts), [], []);
  }

  /** A page of the first URL is returned even from a host that is not the allowed one. */
  lemma FirstPageNeedsNoAllowedHost(web: Web, maxRedirects: nat, allowed: string, url: string, parts: UrlParts,
                                    page: string)
    requires RequestUrl(web.tables, url) == Valid(Some(parts)) && VerifiedAddresses(web, 0, Render(parts)).Pinned?
    requires !EquivalentHost(web.tables, parts.host, allowed)
    requires var host, answer := VerifiedAddresses(web, 0, Render(parts)).host,
      Response(200, None, "text/html", true, Some(page));
      forall a :: web.send(0, Render(parts), host, a) == Responded(answer)
    ensures var journey := Fetch(web, maxRedirects, Some(allowed), url);
      && journey.result.text == Some(page) && journey.result.finalUrl == Render(parts)
      && journey.visited != [] && journey.visited[0] == Render(parts)
  {
    FirstHopIsAsWritten(web, maxRedirects, Some(allowed), url, parts);
    PinnedIsPublic(web, 0, Render(parts));
    var pinned := VerifiedAddresses(web, 0, Render(parts));
    var answer := Response(200, None, "text/html", true, Some(page));
    assert TryAddresses(web, 0, Render(parts), pinned.host, pinned.addresses, [], None).0 == Answered(answer);
    assert ReadResponse(web, maxRedirects, Some(allowed), Render(parts), 0, answer)
      == Finishes(FetchResult(Render(parts), Some(page), Some("text/html"), None, None));
  }
}
