/** The SerpAPI provider: what the exchanges of one search, at most two, make of the reply to a query. */
module SerpApiProvider {
  import opened Common
  import opened Platform
  import opened DiscoveryTables
  import opened SearchProfileDiscovery
  import opened StagingOrchestration

  /** What the body of a successful response turns out to be. */
  datatype Page = Listing(results: seq<ProviderResult>) | Incomplete | Unusable

  datatype Exchange = TransportFailure | Oversized | Answered(status: nat, quotaExhausted: bool, page: Page)

  /** One search: whether its arguments pass the client's checks, its exchanges, and whether the pause went well. */
  datatype Search = Search(wellFormed: bool, exchanges: nat -> Exchange, paused: bool)

  /** A search's reply and the exchanges it made. */
  datatype Outcome = Outcome(reply: Reply, calls: nat)

  const MAX_ATTEMPTS := 2

  function RequestFailure(subtype: ErrorSubtype): Reply {
    Failure(RequestError, Some(Diagnostic(subtype, None)))
  }

  /** The reply to an exchange that brought a response. */
  function ReplyTo(x: Exchange): Reply
    requires !x.TransportFailure?
  {
    match x
    case Oversized => Failure(ResponseTooLarge, None)
    case Answered(status, quotaExhausted, page) =>
      if status == 401 || status == 403 then Failure(AuthenticationError, None)
      else if status == 429 then Failure(if quotaExhausted then QuotaExceeded else RateLimitError, None)
      else if 400 <= status < 500 then Failure(RequestError, Some(Diagnostic(HttpClient, Some(status))))
      else if status >= 500 then Failure(ProviderError, None)
      else match page
        case Listing(results) => Answer(results)
        case Incomplete => Failure(ProviderError, None)
        case Unusable => Failure(ResponseError, None)
  }

  /** A search by a client with or without its key, with some attempts left and perhaps the right to a retry. */
  function Attempted(hasKey: bool, x: Search, remaining: nat, mayRetry: bool): Outcome
    requires remaining <= MAX_ATTEMPTS
    decreases remaining
  {
    if !hasKey then Outcome(Failure(ConfigurationError, None), 0)
    else if !x.wellFormed then Outcome(RequestFailure(Validation), 0)
    else if remaining == 0 then Outcome(RequestFailure(Transport), 0)
    else
      var exchange := x.exchanges(MAX_ATTEMPTS - remaining);
      if !exchange.TransportFailure? then Outcome(ReplyTo(exchange), 1)
      else if !mayRetry then Outcome(RequestFailure(Transport), 1)
      else if !x.paused then Outcome(Failure(RequestError, None), 1)
      else
        var again := Attempted(hasKey, x, remaining - 1, false);
        Outcome(again.reply, again.calls + 1)
  }

  function Searched(hasKey: bool, x: Search): Outcome {
    Attempted(hasKey, x, MAX_ATTEMPTS, true)
  }

  class RetryBudget {
    var remainingAttempts: nat

    constructor ()
      ensures remainingAttempts == MAX_ATTEMPTS
    {
      remainingAttempts := MAX_ATTEMPTS;
    }

    method Consume() returns (granted: bool)
      modifies this
      ensures granted == (old(remainingAttempts) > 0)
      ensures remainingAttempts == if granted then old(remainingAttempts) - 1 else old(remainingAttempts)
    {
      if remainingAttempts == 0 {
        return false;
      }
      remainingAttempts := remainingAttempts - 1;
      granted := true;
    }
  }

  class SerpApiClient {
    const hasKey: bool
    var providerCallCount: nat

    constructor (hasKey: bool)
      ensures this.hasKey == hasKey && providerCallCount == 0
    {
      this.hasKey, providerCallCount := hasKey, 0;
    }

    method SearchCompanies(x: Search) returns (reply: Reply)
      modifies this
      ensures reply == Searched(hasKey, x).reply
      ensures providerCallCount == old(providerCallCount) + Searched(hasKey, x).calls
    {
      var budget := new RetryBudget();
      reply := Attempt(x, budget, true);
    }

    method Attempt(x: Search, budget: RetryBudget, mayRetry: bool) returns (reply: Reply)
      requires budget.remainingAttempts <= MAX_ATTEMPTS
      modifies this, budget
      ensures var outcome := Attempted(hasKey, x, old(budget.remainingAttempts), mayRetry);
        reply == outcome.reply && providerCallCount == old(providerCallCount) + outcome.calls
      decreases budget.remainingAttempts
    {
      if !hasKey {
        return Failure(ConfigurationError, None);
      }
      if !x.wellFormed {
        return RequestFailure(Validation);
      }
      var granted := budget.Consume();
      if !granted {
        return RequestFailure(Transport);
      }
      providerCallCount := providerCallCount + 1;
      var exchange := x.exchanges(MAX_ATTEMPTS - budget.remainingAttempts - 1);
      if !exchange.TransportFailure? {
        return ReplyTo(exchange);
      }
      if !mayRetry {
        return RequestFailure(Transport);
      }
      if !x.paused {
        return Failure(RequestError, None);
      }
      reply := Attempt(x, budget, false);
    }
  }

  /** The exchange that settles a search: the first unless it failed in transport and the second was made. */
  function Settling(x: Search): Exchange {
    if x.exchanges(0).TransportFailure? && x.paused then x.exchanges(1) else x.exchanges(0)
  }

  /**
   A reply carries a status exactly when the settling response had it, as a client error that means neither bad
   credentials nor a limit. It makes two calls at most, none with arguments that are refused.
   */
  lemma StatusIsTheResponses(hasKey: bool, x: Search, status: ClientStatus)
    ensures var outcome := Searched(hasKey, x);
      && ((exists subtype :: outcome.reply == Failure(RequestError, Some(Diagnostic(subtype, Some(status))))) <==>
          && hasKey && x.wellFormed && Settling(x).Answered? && Settling(x).status == status
          && status !in {401, 403, 429})
      && outcome.calls <= MAX_ATTEMPTS && (outcome.calls > 0 <==> hasKey && x.wellFormed)
  {
    var reply := Searched(hasKey, x).reply;
    if hasKey && x.wellFormed && Settling(x).Answered? && Settling(x).status == status && status !in {401, 403, 429} {
      assert reply == Failure(RequestError, Some(Diagnostic(HttpClient, Some(status))));
    }
  }

  /** The code of a reply by the response that settled the search, if there was one. */
  lemma CodesOfResponses(hasKey: bool, x: Search)
    requires hasKey && x.wellFormed && Settling(x).Answered?
    ensures var (reply, settling) := (Searched(hasKey, x).reply, Settling(x));
      && (reply.Answer? <==> settling.status < 400 && settling.page.Listing?)
      && (reply.Answer? ==> reply.results == settling.page.results)
      && (reply.Failure? ==>
          && (reply.code == AuthenticationError <==> settling.status in {401, 403})
          && (reply.code == QuotaExceeded <==> settling.status == 429 && settling.quotaExhausted)
          && (reply.code == RateLimitError <==> settling.status == 429 && !settling.quotaExhausted)
          && (reply.code == RequestError <==> 400 <= settling.status < 500 && settling.status !in {401, 403, 429})
          && (reply.code == ProviderError <==>
              settling.status >= 500 || (settling.status < 400 && settling.page.Incomplete?))
          && (reply.code == ResponseError <==> settling.status < 400 && settling.page.Unusable?))
  {
  }

  lemma SerpApiKeepsTheRule(hasKey: bool, searches: nat -> Search, replies: nat -> Reply)
    requires forall k :: replies(k) == Searched(hasKey, searches(k)).reply
    ensures KeepsDiagnosticRule(replies)
  {
    forall k | replies(k).Failure?
      ensures StorableDiagnostic(replies(k).diagnostic)
    {
      StorableReply(hasKey, searches(k));
    }
  }

  lemma StorableReply(hasKey: bool, x: Search)
    ensures var reply := Searched(hasKey, x).reply; reply.Failure? ==> StorableDiagnostic(reply.diagnostic)
  {
  }

  /**
   The provider's diagnostics keep the rule of a run update, so a persisted run over it reports whenever its dry
   run does and the repository takes the run.
   */
  lemma SerpApiRunsReport(t: Tables, profile: Profile, raw: Option<string>, preview: QueryPreview, hasKey: bool,
                          searches: nat -> Search, replies: nat -> Reply, s: Store, verdict: Verdict)
    requires t.Lawful() && RevalidatePreview(t, profile, preview) == Valid(preview)
    requires forall k :: replies(k) == Searched(hasKey, searches(k)).reply
    requires verdict == Judge(t, profile, raw, preview, replies)
    ensures StagePersisted(t, profile, preview, verdict, s).Ok? <==>
      && StageDry(t, profile, preview, verdict).Ok? && s.nextRun > 0
      && DiscoveryTables.CreateRun(s, profile.projectId, Some(profile.id), 0, None).Ok?
  {
    SerpApiKeepsTheRule(hasKey, searches, replies);
    RuleKeepersReport(t, profile, raw, preview, replies, s, verdict);
  }
}
