/** A fetch told by the answers of the network: which of them redirect, which give a page, where each hop came from. */
module FetchOutcomes {
  import opened Common
  import opened Text
  import opened Platform
  import opened StagingNormalization
  import opened PublicWebFetcher

  // ----- URLs and hosts -----------------------------------------------------------------------------------

  /**
   A text is a request URL exactly when it splits into an http or https URL without credentials whose port can be read
   and whose host, encoded and folded, is made of valid labels; its port, path and query are kept.
   */
  lemma RequestUrlExactlyWhen(t: Tables, value: string, parts: UrlParts)
    requires Strip(value) != ""
    ensures RequestUrl(t, value) == Valid(Some(parts)) <==>
      && t.urlSplit(Strip(value)).Some?
      && var split := t.urlSplit(Strip(value)).value;
      && (parts.scheme == "http" || parts.scheme == "https") && parts.scheme == t.casefold(split.scheme)
      && !split.hasCredentials && split.portValid && split.hostname.Some?
      && t.idna(RStripDots(split.hostname.value)).Some?
      && parts.host == t.casefold(t.idna(RStripDots(split.hostname.value)).value) && ValidHost(parts.host)
      && parts.port == split.port && parts.path == split.path && parts.query == split.query
    ensures RequestUrl(t, value) != Valid(None)
  {
  }

  /** The URL an error shows carries no query. */
  lemma ErrorsShowNoQuery(t: Tables, url: string)
    requires t.Lawful()
    ensures '?' !in SafeErrorUrl(t, url)
  {
    var parts := RequestUrl(t, url);
    if parts.Valid? && parts.value.Some? {
      RequestUrlShape(t, url);
      ValidHostShape(parts.value.value.host);
      StrippedPath(parts.value.value.path);
      NetlocHasNoMark(parts.value.value.host, parts.value.value.port);
    }
  }

  lemma {:induction false} StrippedPath(path: string)
    ensures forall c :: c in StripSlashes(path) ==> c in path
  {
    if path != "" && path[|path| - 1] == '/' {
      StrippedPath(path[..|path| - 1]);
    }
  }

  lemma NetlocHasNoMark(host: string, port: Option<nat>)
    requires HostText(host)
    ensures '?' !in Netloc(host, port)
  {
    if port.Some? {
      DecimalShape(port.value);
    }
  }

  /** The hostname without the one `www.` it may open with. */
  predicate IsBare(host: string, bare: string) {
    host == "www." + bare || (host == bare && !("www." <= host))
  }

  /** Two hosts are equivalent exactly when, folded, they have one bare form. */
  lemma EquivalentExactlyWhen(t: Tables, candidate: string, allowed: string)
    ensures EquivalentHost(t, candidate, allowed) <==>
      exists bare :: IsBare(t.casefold(candidate), bare) && IsBare(t.casefold(allowed), bare)
  {
    var a, b := t.casefold(candidate), t.casefold(allowed);
    BareIsWithoutWww(a);
    BareIsWithoutWww(b);
    if WithoutWww(a) == WithoutWww(b) {
      assert IsBare(a, WithoutWww(a)) && IsBare(b, WithoutWww(a));
    }
  }

  lemma BareIsWithoutWww(host: string)
    ensures forall bare :: IsBare(host, bare) <==> bare == WithoutWww(host)
  {
    if "www." <= host {
      assert host == "www." + host[4..];
      forall bare | IsBare(host, bare)
        ensures bare == host[4..]
      {
        assert ("www." + bare)[4..] == bare;
      }
    }
  }

  /** A host's addresses: the literal it is, or what its resolution says, all of it readable. */
  function Resolved(web: Web, hop: nat, host: string): Option<seq<NetAddress>> {
    match web.parseAddress(host)
    case Some(address) => Some([address])
    case None =>
      match web.resolve(hop, host)
      case None => None
      case Some(names) => ParseAddresses(web, names)
  }

  /** A hop's host is pinned exactly when it is not localhost and all its addresses, at least one, are public. */
  lemma PinnedExactlyWhen(web: Web, hop: nat, url: string)
    ensures VerifiedAddresses(web, hop, url).Pinned? <==>
      && RequestUrl(web.tables, url).Valid? && RequestUrl(web.tables, url).value.Some?
      && var host := RequestUrl(web.tables, url).value.value.host;
      && web.tables.casefold(host) != "localhost" && Resolved(web, hop, host).Some?
      && Resolved(web, hop, host).value != []
      && forall a :: a in Resolved(web, hop, host).value ==> web.isPublic(a)
    ensures VerifiedAddresses(web, hop, url).Pinned? ==>
      VerifiedAddresses(web, hop, url).host == RequestUrl(web.tables, url).value.value.host
    ensures VerifiedAddresses(web, hop, url).Refused? ==>
      var (parts, reason) := (RequestUrl(web.tables, url), VerifiedAddresses(web, hop, url).reason);
      if parts.Invalid? || parts.value.None? then reason == Some(InvalidUrl)
      else if web.tables.casefold(parts.value.value.host) == "localhost" then reason == None
      else
        var resolved := Resolved(web, hop, parts.value.value.host);
        reason == if resolved.None? || resolved.value == [] then Some(DnsFailure) else None
  {
  }

  // ----- One answer ---------------------------------------------------------------------------------------

  predicate IsRedirect(r: Response) {
    r.status in {301, 302, 303, 307, 308}
  }

  /** An answer that leads on: a redirect with a location that is a plain URL on an allowed host. */
  predicate LeadsTo(web: Web, allowed: Option<string>, url: string, r: Response, next: string) {
    && IsRedirect(r) && r.location.Some? && r.location.value != ""
    && var target := RequestUrl(web.tables, web.join(url, r.location.value));
    && target.Valid? && target.value.Some? && next == Render(target.value.value)
    && (allowed.Some? ==> EquivalentHost(web.tables, target.value.value.host, allowed.value))
  }

  predicate IsHtml(r: Response) {
    r.contentType == "text/html" || r.contentType == "application/xhtml+xml" || (r.contentType == "" && r.looksLikeHtml)
  }

  predicate IsPage(r: Response) {
    200 <= r.status < 300 && IsHtml(r) && r.decoded.Some?
  }

  /**
   What an answer means: the next hop exactly when it leads on and a redirect is left, a page exactly when it is an
   HTML page of a success status, and otherwise the one error that says why not.
   */
  lemma WhatAnAnswerMeans(web: Web, maxRedirects: nat, allowed: Option<string>, url: string, redirects: nat,
                          r: Response)
    ensures var next := ReadResponse(web, maxRedirects, allowed, url, redirects, r);
      && (forall target ::
          next == Redirects(target) <==> LeadsTo(web, allowed, url, r, target) && redirects < maxRedirects)
      && (next.Finishes? && next.result.text.Some? <==> IsPage(r))
      && (IsPage(r) ==> next.result == FetchResult(url, r.decoded, if r.contentType == "" then None
                                                                   else Some(r.contentType), None, None))
      && (next.Finishes? && !IsPage(r) ==>
          && next.result.error.Some? && next.result.finalUrl == SafeErrorUrl(web.tables, url)
          && (next.result.error == Some(ResponseNotHtml) <==> 200 <= r.status < 300 && !IsHtml(r))
          && (next.result.error == Some(ResponseDecodeFailed) <==>
              200 <= r.status < 300 && IsHtml(r) && r.decoded.None?)
          && (next.result.error == Some(RedirectLimit) <==>
              IsRedirect(r) && r.location.Some? && r.location.value != "" && redirects >= maxRedirects)
          && (next.result.error == Some(RedirectUnsafe) <==>
              IsRedirect(r) && r.location.Some? && r.location.value != "" && redirects < maxRedirects)
          && (next.result.error == Some(RequestFailed) <==>
              if IsRedirect(r) then r.location.None? || r.location.value == "" else r.status < 200 || r.status >= 300))
      && (next.Finishes? && !IsRedirect(r) && !(200 <= r.status < 300) ==>
          && next.result.reason.Some?
          && (next.result.reason.value == HttpAuthError <==> r.status == 401 || r.status == 403)
          && (next.result.reason.value == ReadTimeout <==> r.status == 408)
          && (next.result.reason.value == HttpRateLimit <==> r.status == 429)
          && (next.result.reason.value == HttpClientError <==>
              400 <= r.status < 500 && r.status !in {401, 403, 408, 429})
          && (next.result.reason.value == HttpServerError <==> 500 <= r.status < 600))
  {
  }

  // ----- One hop ------------------------------------------------------------------------------------------

  /** What the network answered to a call. */
  function AnswerTo(web: Web, calls: seq<Call>, k: nat): Reply
    requires k < |calls|
  {
    web.send(k, calls[k].url, calls[k].host, calls[k].address)
  }

  /** The call of a hop that brought a response. */
  predicate Answers(web: Web, calls: seq<Call>, k: nat, hop: nat, url: string, r: Response) {
    k < |calls| && calls[k].hop == hop && calls[k].url == url && AnswerTo(web, calls, k) == Responded(r)
  }

  /** The calls of a hop go to its addresses in order, each but the last after a failure that may be retried. */
  predicate TriedInOrder(web: Web, before: nat, calls: seq<Call>, hop: nat, url: string, host: string,
                         addresses: seq<NetAddress>)
  {
    && before <= |calls| <= before + |addresses|
    && forall k :: before <= k < |calls| ==>
       && calls[k] == Call(hop, url, host, addresses[k - before])
       && (k < |calls| - 1 ==> AnswerTo(web, calls, k).Retryable?)
  }

  /** A result that reports the failure of a call. */
  predicate SaysFailure(result: FetchResult, reply: Reply) {
    match reply
    case Responded(_) => false
    case TooLarge => result.error == Some(FetchError.ResponseTooLarge) && result.reason == Some(BodyTooLarge)
    case Broken => result.error == Some(RequestFailed) && result.reason == Some(UnknownFailure)
    case Retryable(why) => result.error == Some(RequestFailed) && result.reason == Some(why)
  }

  lemma {:induction false} AddressesAreTriedInOrder(web: Web, hop: nat, url: string, host: string,
                                                    addresses: seq<NetAddress>, calls: seq<Call>,
                                                    reason: Option<FailureReason>)
    ensures var (attempted, made) := TryAddresses(web, hop, url, host, addresses, calls, reason);
      && calls <= made && TriedInOrder(web, |calls|, made, hop, url, host, addresses)
      && (|made| == |calls| ==> addresses == [])
      && (match attempted
          case Answered(r) => |made| > |calls| && Answers(web, made, |made| - 1, hop, url, r)
          case Gave(result) =>
            && result.text.None? && result.finalUrl == SafeErrorUrl(web.tables, url)
            && (|made| == |calls| ==>
                result.error == Some(RequestFailed)
                && result.reason == if reason.Some? then reason else Some(UnknownFailure))
            && (|made| > |calls| ==> SaysFailure(result, AnswerTo(web, made, |made| - 1)))
            && (|made| > |calls| && AnswerTo(web, made, |made| - 1).Retryable? ==> |made| == |calls| + |addresses|))
    decreases |addresses|
  {
    if |addresses| != 0 {
      var made := calls + [Call(hop, url, host, addresses[0])];
      var reply := web.send(|calls|, url, host, addresses[0]);
      if reply.Retryable? {
        AddressesAreTriedInOrder(web, hop, url, host, addresses[1..], made, Some(reply.reason));
      }
    }
  }

  /** A host that is not pinned is refused without a call, as unsafe if a redirect led there. */
  lemma RefusedHopEnds(web: Web, maxRedirects: nat, allowed: Option<string>, url: string, redirects: nat,
                       calls: seq<Call>)
    requires VerifiedAddresses(web, redirects, url).Refused?
    ensures var (hop, made) := MakeHop(web, maxRedirects, allowed, url, redirects, calls);
      && made == calls && hop.Ends? && hop.result.text.None?
      && hop.result.reason == VerifiedAddresses(web, redirects, url).reason
      && hop.result.error == Some(if redirects == 0 then HostNotPublic else RedirectUnsafe)
  {
  }

  /** A hop to a pinned host makes a call, and what it ends in reports the failure of its last call, if that failed. */
  lemma PinnedHopEnds(web: Web, maxRedirects: nat, allowed: Option<string>, url: string, redirects: nat,
                      calls: seq<Call>)
    requires VerifiedAddresses(web, redirects, url).Pinned?
    ensures var (hop, made) := MakeHop(web, maxRedirects, allowed, url, redirects, calls);
      && |made| > |calls|
      && (!AnswerTo(web, made, |made| - 1).Responded? ==>
          hop.Ends? && hop.result.text.None? && SaysFailure(hop.result, AnswerTo(web, made, |made| - 1)))
  {
    var pinned := VerifiedAddresses(web, redirects, url);
    AddressesAreThere(web, redirects, url);
    LastCallAnswers(web, redirects, url, pinned.host, pinned.addresses, calls);
  }

  lemma AddressesAreThere(web: Web, hop: nat, url: string)
    requires VerifiedAddresses(web, hop, url).Pinned?
    ensures VerifiedAddresses(web, hop, url).addresses != []
  {
    PinnedIsPublic(web, hop, url);
  }

  /** What the attempts end in is the answer to their last call. */
  predicate IsAnswered(attempted: Attempted, reply: Reply) {
    match attempted
    case Answered(r) => reply == Responded(r)
    case Gave(result) => result.text.None? && SaysFailure(result, reply)
  }

  lemma LastCallAnswers(web: Web, hop: nat, url: string, host: string, addresses: seq<NetAddress>, calls: seq<Call>)
    requires addresses != []
    ensures var (attempted, made) := TryAddresses(web, hop, url, host, addresses, calls, None);
      |made| > |calls| && IsAnswered(attempted, AnswerTo(web, made, |made| - 1))
  {
    AddressesAreTriedInOrder(web, hop, url, host, addresses, calls, None);
  }

  // ----- A whole fetch --------------------------------------------------------------------------------------

  predicate LedBy(web: Web, allowed: Option<string>, calls: seq<Call>, k: nat, hop: nat, url: string, r: Response,
                  next: string)
  {
    Answers(web, calls, k, hop, url, r) && LeadsTo(web, allowed, url, r, next)
  }

  /** A hop was answered with a redirect to a URL. */
  ghost predicate Led(web: Web, allowed: Option<string>, calls: seq<Call>, hop: nat, url: string, next: string) {
    exists k, r :: LedBy(web, allowed, calls, k, hop, url, r, next)
  }

  predicate PagedBy(web: Web, calls: seq<Call>, k: nat, hop: nat, url: string, r: Response, result: FetchResult) {
    Answers(web, calls, k, hop, url, r) && IsPage(r) && result.text == r.decoded && result.finalUrl == url
  }

  /** A hop was answered with the page returned. */
  ghost predicate Paged(web: Web, calls: seq<Call>, hop: nat, url: string, result: FetchResult) {
    exists k, r :: PagedBy(web, calls, k, hop, url, r, result)
  }

  /** Every hop but the last was answered with a redirect to the next. */
  ghost predicate AllLinked(web: Web, allowed: Option<string>, visited: seq<string>, calls: seq<Call>) {
    forall i :: 0 <= i < |visited| - 1 ==> Led(web, allowed, calls, i, visited[i], visited[i + 1])
  }

  ghost predicate LedHere(web: Web, allowed: Option<string>, visited: seq<string>, calls: seq<Call>, url: string) {
    visited == [] || Led(web, allowed, calls, |visited| - 1, visited[|visited| - 1], url)
  }

  ghost predicate PageAnswered(web: Web, journey: Journey) {
    journey.visited != []
    && Paged(web, journey.calls, |journey.visited| - 1, journey.visited[|journey.visited| - 1], journey.result)
  }

  lemma LedStays(web: Web, allowed: Option<string>, calls: seq<Call>, made: seq<Call>, hop: nat, url: string,
                 next: string)
    requires Led(web, allowed, calls, hop, url, next) && calls <= made
    ensures Led(web, allowed, made, hop, url, next)
  {
    var k, r :| LedBy(web, allowed, calls, k, hop, url, r, next);
    assert LedBy(web, allowed, made, k, hop, url, r, next);
  }

  /** The hop that was just made, as its calls tell it. */
  lemma HopIsTold(web: Web, maxRedirects: nat, allowed: Option<string>, url: string, redirects: nat, calls: seq<Call>)
    ensures var (hop, made) := MakeHop(web, maxRedirects, allowed, url, redirects, calls);
      && calls <= made
      && (hop.Goes? ==> Led(web, allowed, made, redirects, url, hop.url))
      && (hop.Ends? && hop.result.text.Some? ==> Paged(web, made, redirects, url, hop.result))
  {
    match VerifiedAddresses(web, redirects, url)
    case Refused(_) =>
    case Pinned(host, addresses) =>
      AddressesAreTriedInOrder(web, redirects, url, host, addresses, calls, None);
      var (attempted, made) := TryAddresses(web, redirects, url, host, addresses, calls, None);
      if attempted.Answered? {
        var r := attempted.response;
        WhatAnAnswerMeans(web, maxRedirects, allowed, url, redirects, r);
        var next := ReadResponse(web, maxRedirects, allowed, url, redirects, r);
        if next.Redirects? {
          assert LedBy(web, allowed, made, |made| - 1, redirects, url, r, next.url);
        } else if next.result.text.Some? {
          assert PagedBy(web, made, |made| - 1, redirects, url, r, next.result);
        }
      }
  }

  lemma OneMoreLink(web: Web, allowed: Option<string>, visited: seq<string>, calls: seq<Call>, made: seq<Call>,
                    url: string)
    requires AllLinked(web, allowed, visited, calls) && calls <= made && LedHere(web, allowed, visited, calls, url)
    ensures AllLinked(web, allowed, visited + [url], made)
  {
    var more := visited + [url];
    forall i | 0 <= i < |more| - 1
      ensures Led(web, allowed, made, i, more[i], more[i + 1])
    {
      LedStays(web, allowed, calls, made, i, more[i], more[i + 1]);
    }
  }

  lemma {:induction false} JourneysAreTold(web: Web, maxRedirects: nat, allowed: Option<string>, url: string,
                                           visited: seq<string>, calls: seq<Call>)
    requires |visited| <= maxRedirects && AllLinked(web, allowed, visited, calls)
    requires LedHere(web, allowed, visited, calls, url)
    ensures var journey := Follow(web, maxRedirects, allowed, url, visited, calls);
      && AllLinked(web, allowed, journey.visited, journey.calls)
      && (journey.result.text.Some? ==> PageAnswered(web, journey))
    decreases maxRedirects - |visited|
  {
    if url !in visited {
      var (hop, made) := MakeHop(web, maxRedirects, allowed, url, |visited|, calls);
      HopIsTold(web, maxRedirects, allowed, url, |visited|, calls);
      OneMoreLink(web, allowed, visited, calls, made, url);
      if hop.Goes? {
        LedFromHere(web, allowed, visited, url, made, hop.url);
        JourneysAreTold(web, maxRedirects, allowed, hop.url, visited + [url], made);
      } else {
        PageFromHere(web, visited, url, made, hop.result);
      }
    }
  }

  lemma LedFromHere(web: Web, allowed: Option<string>, visited: seq<string>, url: string, calls: seq<Call>,
                    next: string)
    requires Led(web, allowed, calls, |visited|, url, next)
    ensures LedHere(web, allowed, visited + [url], calls, next)
  {
  }

  lemma PageFromHere(web: Web, visited: seq<string>, url: string, calls: seq<Call>, result: FetchResult)
    requires result.text.Some? ==> Paged(web, calls, |visited|, url, result)
    ensures result.text.Some? ==> PageAnswered(web, Journey(result, visited + [url], calls))
  {
  }

  /**
   Every hop of a fetch after the first is where the answer to the one before it led, and a page returned is what the
   last hop was answered.
   */
  lemma FetchIsTold(web: Web, maxRedirects: nat, allowed: Option<string>, url: string)
    ensures var journey := Fetch(web, maxRedirects, allowed, url);
      && AllLinked(web, allowed, journey.visited, journey.calls)
      && (journey.result.text.Some? ==> PageAnswered(web, journey))
  {
    var normalized := RequestUrl(web.tables, url);
    if normalized.Valid? && normalized.value.Some? {
      JourneysAreTold(web, maxRedirects, allowed, Render(normalized.value.value), [], []);
    }
  }

  /** An answer that leads on is followed: the journey reaches the next hop unless it has been there or none is left. */
  lemma RedirectsAreFollowed(web: Web, maxRedirects: nat, allowed: Option<string>, url: string, visited: seq<string>,
                             calls: seq<Call>, r: Response, next: string)
    requires |visited| < maxRedirects && url !in visited && next !in visited + [url]
    requires VerifiedAddresses(web, |visited|, url).Pinned?
    requires var pinned := VerifiedAddresses(web, |visited|, url);
      TryAddresses(web, |visited|, url, pinned.host, pinned.addresses, calls, None).0 == Answered(r)
    requires LeadsTo(web, allowed, url, r, next)
    ensures visited + [url, next] <= Follow(web, maxRedirects, allowed, url, visited, calls).visited
  {
    var (hop, made) := MakeHop(web, maxRedirects, allowed, url, |visited|, calls);
    WhatAnAnswerMeans(web, maxRedirects, allowed, url, |visited|, r);
    assert hop == Goes(next);
    FirstHop(web, maxRedirects, allowed, next, visited + [url], made);
    NextHopIsVisited(web, maxRedirects, allowed, next, visited + [url], made);
    assert visited + [url, next] == visited + [url] + [next];
  }

  lemma {:induction false} NextHopIsVisited(web: Web, maxRedirects: nat, allowed: Option<string>, url: string,
                                            visited: seq<string>, calls: seq<Call>)
    requires |visited| <= maxRedirects && url !in visited
    ensures visited + [url] <= Follow(web, maxRedirects, allowed, url, visited, calls).visited
  {
    var (hop, made) := MakeHop(web, maxRedirects, allowed, url, |visited|, calls);
    if hop.Goes? {
      FirstHop(web, maxRedirects, allowed, hop.url, visited + [url], made);
    }
  }
}
