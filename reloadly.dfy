/** The Reloadly gift-card client: the cached bearer token and the decision
    to fetch it again (a class, since the client updates two fields in place),
    and the pure shaping of every request it sends (base URL, endpoint paths,
    headers, the OAuth body). The HTTP calls themselves are not modelled: a
    request is described by the `HttpRequest` value it would send, and the
    outcome of the token fetch is an input. */
module Reloadly {

  import opened Wrappers
  import opened Text

  /** An ordered dictionary of strings (header, query or JSON-body fields). */
  type Pairs = seq<(string, string)>

  /** The value stored under `key`; every dictionary built here has distinct keys. */
  function Lookup(ps: Pairs, key: string): (r: Option<string>)
    ensures r.Some? ==> (key, r.value) in ps
    ensures r.None? <==> forall i :: 0 <= i < |ps| ==> ps[i].0 != key
  {
    if ps == [] then None
    else if ps[0].0 == key then Some(ps[0].1)
    else Lookup(ps[1..], key)
  }

  /** The value under `key` is the one at its first occurrence. */
  lemma {:induction false} LookupFirst(ps: Pairs, key: string, i: nat)
    requires i < |ps| && ps[i].0 == key
    requires forall j :: 0 <= j < i ==> ps[j].0 != key
    ensures Lookup(ps, key) == Some(ps[i].1)
    decreases i
  {
    if i > 0 {
      LookupFirst(ps[1..], key, i - 1);
    }
  }

  /** The token record the authorization server returns. */
  datatype BearerResponse = BearerResponse(accessToken: string, expiresIn: int, scope: string, tokenType: string)

  datatype Verb = Get | Post

  /** A request as it would be handed to the HTTP layer. */
  datatype HttpRequest = HttpRequest(verb: Verb, url: string, headers: Pairs, params: Pairs, body: Pairs)

  datatype Error =
    | AuthenticationFailed          // the token fetch raised: a transport or decode failure, or the TypeError/KeyError of the expiry arithmetic
    | UnsupportedMethod(verb: string) // `_request` was given a verb other than get/post

  // ---------------------------------------------------------------------------
  // Base URL and the authorization request

  const ProductionBaseUrl := "https://giftcards.reloadly.com/"
  const SandboxBaseUrl := "https://giftcards-sandbox.reloadly.com/"
  const AuthUrl := "https://auth.reloadly.com/oauth/token"

  /** The API root chosen once at construction from `test_mode`. */
  function BaseUrl(testMode: bool): (url: string)
    ensures url == SandboxBaseUrl <==> testMode
    ensures url == ProductionBaseUrl <==> !testMode
  {
    var test := if testMode then "-sandbox" else "";
    assert |SandboxBaseUrl| != |ProductionBaseUrl|;
    "https://giftcards" + test + ".reloadly.com/"
  }

  /** The JSON body of the client-credentials grant. */
  function AuthRequestBody(clientId: string, clientSecret: string, audience: string): Pairs {
    [("client_id", clientId), ("client_secret", clientSecret),
     ("grant_type", "client_credentials"), ("audience", audience)]
  }

  /** The POST to the OAuth token endpoint. */
  function AuthRequest(clientId: string, clientSecret: string, baseUrl: string): HttpRequest {
    HttpRequest(Post, AuthUrl,
                [("Content-Type", "application/json"), ("Accept", "application/json")],
                [], AuthRequestBody(clientId, clientSecret, baseUrl))
  }

  /** The grant body holds the credentials, the client-credentials grant type
      and the audience, each under its own key. */
  lemma AuthRequestBodyFields(clientId: string, clientSecret: string, audience: string)
    ensures var body := AuthRequestBody(clientId, clientSecret, audience);
      |body| == 4 &&
      Lookup(body, "client_id") == Some(clientId) &&
      Lookup(body, "client_secret") == Some(clientSecret) &&
      Lookup(body, "grant_type") == Some("client_credentials") &&
      Lookup(body, "audience") == Some(audience)
  {
    var body := AuthRequestBody(clientId, clientSecret, audience);
    LookupFirst(body, "client_id", 0);
    LookupFirst(body, "client_secret", 1);
    LookupFirst(body, "grant_type", 2);
    LookupFirst(body, "audience", 3);
  }

  /** The token request is a JSON POST to the OAuth endpoint whose audience is the API root. */
  lemma AuthRequestShape(clientId: string, clientSecret: string, baseUrl: string)
    ensures var req := AuthRequest(clientId, clientSecret, baseUrl);
      req.verb == Post && req.url == AuthUrl &&
      Lookup(req.headers, "Content-Type") == Some("application/json") &&
      Lookup(req.headers, "Accept") == Some("application/json") &&
      Lookup(req.body, "grant_type") == Some("client_credentials") &&
      Lookup(req.body, "audience") == Some(baseUrl)
  {
    var req := AuthRequest(clientId, clientSecret, baseUrl);
    LookupFirst(req.headers, "Content-Type", 0);
    LookupFirst(req.headers, "Accept", 1);
    AuthRequestBodyFields(clientId, clientSecret, baseUrl);
  }

  // ---------------------------------------------------------------------------
  // The token state and its update rule

  /** `bearer_response` and `bearer_exipiries_at`. */
  datatype TokenState = TokenState(response: Option<BearerResponse>, expiresAt: Option<int>)

  const NoToken := TokenState(None, None)

  /** Token and expiry are set together; every state the client itself reaches is like this. */
  predicate Consistent(s: TokenState) {
    s.response.Some? <==> s.expiresAt.Some?
  }

  /** How a call of `get_bearer_response` can raise. `TypeError` is what the
      expiry arithmetic `result["expires_in"] - 1` raises on an answer that is
      not a JSON object (null, a number, a boolean, a string, an array), or on
      an object whose `expires_in` is neither a number nor a boolean (a Python
      `bool` subtracts like an int, so `true` and `false` are `Fetched` with
      `expiresIn` 1 and 0). `OtherError` is a transport or decode failure, or
      an object with no `expires_in` key (a `KeyError`). */
  datatype Raise = TypeError | OtherError

  /** What one call of `get_bearer_response` yields. */
  datatype FetchOutcome = Fetched(response: BearerResponse) | Raised(raise: Raise)

  /** Whether `update_bearer` at time `now` calls the authorization server.
      The comparison `expiresAt > now` is the source's own: it fetches again
      while the token is still valid and never once it has expired. */
  predicate NeedsFetch(s: TokenState, now: int) {
    s.response.None? || (s.expiresAt.Some? && s.expiresAt.value > now)
  }

  /** Whether the refetch inside `try` raised `TypeError`, so that the
      `except TypeError` branch fetches a second time. The first fetch, for a
      missing token, is outside `try` and is never repeated. */
  predicate Retries(s: TokenState, now: int, first: FetchOutcome) {
    s.response.Some? && s.expiresAt.Some? && s.expiresAt.value > now && first == Raised(TypeError)
  }

  /** Calls to the authorization server that one `update_bearer` makes. */
  function FetchesMade(s: TokenState, now: int, first: FetchOutcome): nat {
    if !NeedsFetch(s, now) then 0 else if Retries(s, now, first) then 2 else 1
  }

  /** The outcome `update_bearer` acts on: the second call's when it retries,
      otherwise the first call's. */
  function Decisive(s: TokenState, now: int, first: FetchOutcome, retry: FetchOutcome): FetchOutcome {
    if Retries(s, now, first) then retry else first
  }

  /** Expiry of a token fetched at `now`: one second before its nominal lifetime ends. */
  function ExpiresAt(now: int, expiresIn: int): int {
    now + (expiresIn - 1)
  }

  /** Whether `update_bearer` raises: it had to fetch and the fetch it acts on raised. */
  predicate UpdateFails(s: TokenState, now: int, first: FetchOutcome, retry: FetchOutcome) {
    NeedsFetch(s, now) && Decisive(s, now, first, retry).Raised?
  }

  /** The state after `update_bearer` at `now`, when the first call to the
      authorization server would yield `first` and a second one `retry`. */
  function Updated(s: TokenState, now: int, first: FetchOutcome, retry: FetchOutcome): TokenState {
    var outcome := Decisive(s, now, first, retry);
    if NeedsFetch(s, now) && outcome.Fetched? then
      TokenState(Some(outcome.response), Some(ExpiresAt(now, outcome.response.expiresIn)))
    else
      s
  }

  /** One call of `update_bearer`: the time and what the server would answer. */
  datatype Tick = Tick(now: int, first: FetchOutcome, retry: FetchOutcome)

  /** The state after successive `update_bearer` calls. */
  function Run(s: TokenState, ticks: seq<Tick>): TokenState
    decreases |ticks|
  {
    if ticks == [] then s
    else Run(Updated(s, ticks[0].now, ticks[0].first, ticks[0].retry), ticks[1..])
  }

  /** How many calls to the authorization server those updates make. */
  function FetchCount(s: TokenState, ticks: seq<Tick>): nat
    decreases |ticks|
  {
    if ticks == [] then 0
    else FetchesMade(s, ticks[0].now, ticks[0].first)
         + FetchCount(Updated(s, ticks[0].now, ticks[0].first, ticks[0].retry), ticks[1..])
  }

  lemma UpdatedKeepsConsistent(s: TokenState, now: int, first: FetchOutcome, retry: FetchOutcome)
    requires Consistent(s)
    ensures Consistent(Updated(s, now, first, retry))
    ensures !UpdateFails(s, now, first, retry) ==> Updated(s, now, first, retry).response.Some?
  {
  }

  /** Starting from a consistent state, no sequence of updates reaches the
      state "token held, expiry unset". */
  lemma {:induction false} RunKeepsConsistent(s: TokenState, ticks: seq<Tick>)
    requires Consistent(s)
    ensures Consistent(Run(s, ticks))
    decreases |ticks|
  {
    if ticks != [] {
      UpdatedKeepsConsistent(s, ticks[0].now, ticks[0].first, ticks[0].retry);
      RunKeepsConsistent(Updated(s, ticks[0].now, ticks[0].first, ticks[0].retry), ticks[1..]);
    }
  }

  /** Once the clock has reached the stored expiry the token is kept for good:
      no later call fetches, whatever the server would answer. */
  lemma {:induction false} ExpiredTokenIsNeverRefreshed(s: TokenState, ticks: seq<Tick>)
    requires s.response.Some? && s.expiresAt.Some?
    requires forall i :: 0 <= i < |ticks| ==> ticks[i].now >= s.expiresAt.value
    ensures Run(s, ticks) == s
    ensures FetchCount(s, ticks) == 0
    decreases |ticks|
  {
    if ticks != [] {
      assert !NeedsFetch(s, ticks[0].now);
      ExpiredTokenIsNeverRefreshed(s, ticks[1..]);
    }
  }

  /** A token held with no expiry is never replaced and never fetched. */
  lemma {:induction false} UnsetExpiryIsNeverRefreshed(s: TokenState, ticks: seq<Tick>)
    requires s.response.Some? && s.expiresAt.None?
    ensures Run(s, ticks) == s
    ensures FetchCount(s, ticks) == 0
    decreases |ticks|
  {
    if ticks != [] {
      UnsetExpiryIsNeverRefreshed(s, ticks[1..]);
    }
  }

  /** Two calls inside the validity window of the first token fetch at least
      twice, and three times when the refetch raises `TypeError`: the cached
      token is not reused. */
  lemma TwoCallsInWindowFetchTwice(t1: int, b1: BearerResponse, r1: FetchOutcome,
                                   t2: int, f2: FetchOutcome, r2: FetchOutcome)
    requires t2 < ExpiresAt(t1, b1.expiresIn)
    ensures FetchCount(NoToken, [Tick(t1, Fetched(b1), r1), Tick(t2, f2, r2)])
            == 2 + (if f2 == Raised(TypeError) then 1 else 0)
  {
    var ticks := [Tick(t1, Fetched(b1), r1), Tick(t2, f2, r2)];
    var s1 := Updated(NoToken, t1, Fetched(b1), r1);
    assert ticks[1..] == [Tick(t2, f2, r2)];
    assert NeedsFetch(s1, t2);
    assert FetchCount(s1, ticks[1..]) == FetchesMade(s1, t2, f2) + FetchCount(Updated(s1, t2, f2, r2), []);
  }

  // ---------------------------------------------------------------------------
  // Verbs and headers

  /** `method.lower()` compared with "get" and "post". */
  function MethodKind(verb: string): (r: Option<Verb>)
    ensures r == Some(Get) <==> SameIgnoringCase(verb, "get")
    ensures r == Some(Post) <==> SameIgnoringCase(verb, "post")
    ensures r == None <==> !SameIgnoringCase(verb, "get") && !SameIgnoringCase(verb, "post")
  {
    LowerEqualsWord(verb, "get");
    LowerEqualsWord(verb, "post");
    if Lower(verb) == "get" then Some(Get)
    else if Lower(verb) == "post" then Some(Post)
    else None
  }

  const DefaultAccept := "application/com.reloadly.giftcards-v1+json"

  /** Accept header naming API version `version`. */
  function AcceptFor(version: int): string {
    "application/com.reloadly.giftcards-v" + IntToString(version) + "+json"
  }

  function BearerAuthorization(token: string): (h: string)
    ensures |h| == 7 + |token| && h[..7] == "Bearer " && h[7..] == token
  {
    "Bearer " + token
  }

  /** Headers `_request` builds when none are passed. */
  function DefaultHeaders(token: string): (hs: Pairs)
    ensures |hs| == 2
    ensures Lookup(hs, "Accept") == Some(DefaultAccept)
    ensures Lookup(hs, "Authorization") == Some("Bearer " + token)
    ensures Lookup(hs, "Content-Type") == None
  {
    [("Accept", DefaultAccept), ("Authorization", BearerAuthorization(token))]
  }

  /** Headers `order` builds, carrying the configured API version. */
  function OrderHeaders(version: int, token: string): (hs: Pairs)
    ensures |hs| == 3
    ensures Lookup(hs, "Content-Type") == Some("application/json")
    ensures Lookup(hs, "Accept") == Some(AcceptFor(version))
    ensures Lookup(hs, "Authorization") == Some("Bearer " + token)
  {
    var hs := [("Content-Type", "application/json"), ("Accept", AcceptFor(version)),
               ("Authorization", BearerAuthorization(token))];
    LookupFirst(hs, "Content-Type", 0);
    LookupFirst(hs, "Accept", 1);
    LookupFirst(hs, "Authorization", 2);
    hs
  }

  /** The order Accept header agrees with every other call's only for API version 1. */
  lemma OrderAcceptMatchesDefaultOnlyForVersionOne(version: int, token: string)
    ensures Lookup(OrderHeaders(version, token), "Accept") == Lookup(DefaultHeaders(token), "Accept")
            <==> version == 1
  {
    var p, q := "application/com.reloadly.giftcards-v", "+json";
    assert IntToString(1) == "1";
    assert DefaultAccept == p + "1" + q;
    if AcceptFor(version) == DefaultAccept {
      CancelAffixes(p, IntToString(version), "1", q);
      IntToStringInjective(version, 1);
    }
  }

  // ---------------------------------------------------------------------------
  // Operations and their endpoints

  /** The public wrapper methods. `Products` and `Order` carry the caller's
      parameter and order dictionaries, passed through unchanged. */
  datatype Operation =
    | Balance
    | Countries
    | CountryByIsoCode(isocode: string)
    | Products(productParams: Pairs)
    | ProductById(productId: int)
    | ProductByIsoCode(isocode: string)
    | RedeemInstructions
    | RedeemInstructionsById(brandId: int)
    | Discounts(size: int, page: int)
    | DiscountById(productId: int)
    | Transactions
    | TransactionById(transactionId: int)
    | Order(orderData: Pairs)
    | RedeemCode(transactionId: int)

  /** The path each operation requests, relative to the API root (which ends in
      '/'), so that the URL is the root followed by the path. */
  function Endpoint(op: Operation): (path: string)
    ensures |path| > 0 && path[0] != '/'
  {
    match op
    case Balance => "accounts/balance"
    case Countries => "countries"
    case CountryByIsoCode(c) => "countries/" + c
    case Products(_) => "products"
    case ProductById(p) => "products/" + IntToString(p)
    case ProductByIsoCode(c) => "countries/" + c + "/products"
    case RedeemInstructions => "redeem-instructions"
    case RedeemInstructionsById(b) => "redeem-instructions/" + IntToString(b)
    case Discounts(_, _) => "discounts"
    case DiscountById(p) => "products/" + IntToString(p) + "/discounts"
    case Transactions => "reports/transactions"
    case TransactionById(t) => "reports/transactions/" + IntToString(t)
    case Order(_) => "orders"
    case RedeemCode(t) => "orders/transactions/" + IntToString(t) + "/cards"
  }

  /** The query parameters each operation sends. */
  function QueryParams(op: Operation): Pairs {
    match op
    case Products(ps) => ps
    case Discounts(size, page) => [("size", IntToString(size)), ("page", IntToString(page))]
    case _ => []
  }

  /** Requests for different numeric ids of the same operation go to different paths. */
  lemma EndpointDeterminesId(a: int, b: int)
    ensures Endpoint(ProductById(a)) == Endpoint(ProductById(b)) ==> a == b
    ensures Endpoint(RedeemInstructionsById(a)) == Endpoint(RedeemInstructionsById(b)) ==> a == b
    ensures Endpoint(DiscountById(a)) == Endpoint(DiscountById(b)) ==> a == b
    ensures Endpoint(TransactionById(a)) == Endpoint(TransactionById(b)) ==> a == b
    ensures Endpoint(RedeemCode(a)) == Endpoint(RedeemCode(b)) ==> a == b
  {
    IntToStringInjective(a, b);
    if Endpoint(ProductById(a)) == Endpoint(ProductById(b)) {
      CancelAffixes("products/", IntToString(a), IntToString(b), "");
    }
    if Endpoint(RedeemInstructionsById(a)) == Endpoint(RedeemInstructionsById(b)) {
      CancelAffixes("redeem-instructions/", IntToString(a), IntToString(b), "");
    }
    if Endpoint(DiscountById(a)) == Endpoint(DiscountById(b)) {
      CancelAffixes("products/", IntToString(a), IntToString(b), "/discounts");
    }
    if Endpoint(TransactionById(a)) == Endpoint(TransactionById(b)) {
      CancelAffixes("reports/transactions/", IntToString(a), IntToString(b), "");
    }
    if Endpoint(RedeemCode(a)) == Endpoint(RedeemCode(b)) {
      CancelAffixes("orders/transactions/", IntToString(a), IntToString(b), "/cards");
    }
  }

  /** ISO codes are inserted unescaped, so a code containing '/' can name
      another operation's path. */
  lemma IsoCodePathsCanCollide(c: string)
    ensures Endpoint(CountryByIsoCode(c + "/products")) == Endpoint(ProductByIsoCode(c))
  {
  }

  // ---------------------------------------------------------------------------
  // The client object

  class ReloadlyGCIO {
    const clientId: string
    const clientSecret: string
    const baseUrl: string
    const apiVersion: int

    var bearerResponse: Option<BearerResponse>
    var bearerExpiresAt: Option<int>

    /** Calls to the authorization server so far. */
    ghost var fetches: nat
    /** Calls of `update_bearer` so far. */
    ghost var updates: nat

    function State(): TokenState
      reads this
    {
      TokenState(bearerResponse, bearerExpiresAt)
    }

    constructor (clientId: string, clientSecret: string, testMode: bool := false, apiVersion: int := 1)
      ensures this.clientId == clientId && this.clientSecret == clientSecret
      ensures this.apiVersion == apiVersion
      ensures baseUrl == BaseUrl(testMode)
      ensures (baseUrl == SandboxBaseUrl <==> testMode) && (baseUrl == ProductionBaseUrl <==> !testMode)
      ensures bearerResponse == None && bearerExpiresAt == None
      ensures Consistent(State())
      ensures fetches == 0 && updates == 0
    {
      this.clientId := clientId;
      this.clientSecret := clientSecret;
      baseUrl := BaseUrl(testMode);
      bearerResponse := None;
      bearerExpiresAt := None;
      this.apiVersion := apiVersion;
      fetches, updates := 0, 0;
    }

    /** One call to the authorization server at time `now`, which yields
        `outcome`. Returns the token and its expiry, or what was raised, and the
        request it sent. */
    method GetBearerResponse(now: int, outcome: FetchOutcome)
      returns (r: Result<(BearerResponse, int), Raise>, sent: HttpRequest)
      modifies this`fetches
      ensures fetches == old(fetches) + 1
      ensures sent == AuthRequest(clientId, clientSecret, baseUrl)
      ensures r.Failure? <==> outcome.Raised?
      ensures r.Failure? ==> r.error == outcome.raise
      ensures r.Success? ==> r.value.0 == outcome.response && r.value.1 == now + outcome.response.expiresIn - 1
    {
      sent := AuthRequest(clientId, clientSecret, baseUrl);
      fetches := fetches + 1;
      if outcome.Raised? {
        r := Failure(outcome.raise);
      } else {
        r := Success((outcome.response, ExpiresAt(now, outcome.response.expiresIn)));
      }
    }

    /** `update_bearer` at time `now`: `first` is what the first call to the
        authorization server yields, `retry` what a second one would. Returns
        false when it raises; the state is then unchanged. */
    method UpdateBearer(now: int, first: FetchOutcome, retry: FetchOutcome) returns (ok: bool)
      modifies this`bearerResponse, this`bearerExpiresAt, this`fetches, this`updates
      ensures updates == old(updates) + 1
      ensures State() == Updated(old(State()), now, first, retry)
      ensures fetches == old(fetches) + FetchesMade(old(State()), now, first)
      ensures ok <==> !UpdateFails(old(State()), now, first, retry)
      ensures ok ==> bearerResponse.Some?
      // no token yet: exactly one fetch, after which both fields are set from it
      ensures old(bearerResponse).None? ==>
        fetches == old(fetches) + 1 && (ok <==> first.Fetched?) &&
        (ok ==> bearerResponse == Some(first.response) &&
                bearerExpiresAt == Some(now + first.response.expiresIn - 1))
      // token held and its expiry later than now: fetched again, both fields replaced
      ensures old(bearerResponse).Some? && old(bearerExpiresAt).Some? && old(bearerExpiresAt).value > now &&
              first != Raised(TypeError) ==>
        fetches == old(fetches) + 1 && (ok <==> first.Fetched?) &&
        (ok ==> bearerResponse == Some(first.response) &&
                bearerExpiresAt == Some(now + first.response.expiresIn - 1))
      // ... and when that refetch raises TypeError, fetched a second time
      ensures old(bearerResponse).Some? && old(bearerExpiresAt).Some? && old(bearerExpiresAt).value > now &&
              first == Raised(TypeError) ==>
        fetches == old(fetches) + 2 && (ok <==> retry.Fetched?) &&
        (ok ==> bearerResponse == Some(retry.response) &&
                bearerExpiresAt == Some(now + retry.response.expiresIn - 1))
      // token held and its expiry not later than now: nothing happens
      ensures old(bearerResponse).Some? && old(bearerExpiresAt).Some? && old(bearerExpiresAt).value <= now ==>
        ok && fetches == old(fetches) && State() == old(State())
      // token held but expiry unset: nothing happens
      ensures old(bearerResponse).Some? && old(bearerExpiresAt).None? ==>
        ok && fetches == old(fetches) && State() == old(State())
      ensures !ok ==> State() == old(State())
      ensures old(Consistent(State())) ==> Consistent(State())
    {
      updates := updates + 1;
      ok := true;
      if bearerResponse.None? {
        var r, _ := GetBearerResponse(now, first);
        if r.Failure? {
          ok := false;
        } else {
          bearerResponse, bearerExpiresAt := Some(r.value.0), Some(r.value.1);
        }
      } else if bearerExpiresAt.Some? {
        if bearerExpiresAt.value > now {
          var r, sent := GetBearerResponse(now, first);
          if r.Failure? && r.error == TypeError {
            r, sent := GetBearerResponse(now, retry);
          }
          if r.Failure? {
            ok := false;
          } else {
            bearerResponse, bearerExpiresAt := Some(r.value.0), Some(r.value.1);
          }
        }
      } else {
        // a token without an expiry: left as it is
      }
    }

    /** `_request` (reached through `get` and `post`): with no headers it first
        brings the token up to date and uses the default headers; given headers
        are used as they are, without touching the token. */
    method Request(verb: string, url: string, headers: Pairs, params: Pairs, body: Pairs,
                   now: int, first: FetchOutcome, retry: FetchOutcome)
      returns (r: Result<HttpRequest, Error>)
      modifies this`bearerResponse, this`bearerExpiresAt, this`fetches, this`updates
      ensures headers == [] ==>
        updates == old(updates) + 1 &&
        State() == Updated(old(State()), now, first, retry) &&
        fetches == old(fetches) + FetchesMade(old(State()), now, first)
      ensures headers != [] ==>
        updates == old(updates) && fetches == old(fetches) && State() == old(State())
      ensures headers == [] && UpdateFails(old(State()), now, first, retry) ==> r == Failure(AuthenticationFailed)
      ensures headers == [] && !UpdateFails(old(State()), now, first, retry) ==> bearerResponse.Some?
      ensures (headers != [] || !UpdateFails(old(State()), now, first, retry)) ==>
        r == match MethodKind(verb)
             case None => Failure(UnsupportedMethod(verb))
             case Some(v) =>
               Success(HttpRequest(v, url,
                                   if headers == [] then DefaultHeaders(bearerResponse.value.accessToken) else headers,
                                   params, body))
    {
      var hs := headers;
      if hs == [] {
        var ok := UpdateBearer(now, first, retry);
        if !ok {
          return Failure(AuthenticationFailed);
        }
        hs := DefaultHeaders(bearerResponse.value.accessToken);
      }
      var kind := MethodKind(verb);
      if kind.None? {
        r := Failure(UnsupportedMethod(verb));
      } else {
        r := Success(HttpRequest(kind.value, url, hs, params, body));
      }
    }

    /** `api_get_request`: a GET of the API root plus `endpoint`. */
    method ApiGetRequest(endpoint: string, params: Pairs, now: int, first: FetchOutcome, retry: FetchOutcome)
      returns (r: Result<HttpRequest, Error>)
      modifies this`bearerResponse, this`bearerExpiresAt, this`fetches, this`updates
      ensures updates == old(updates) + 1
      ensures State() == Updated(old(State()), now, first, retry)
      ensures fetches == old(fetches) + FetchesMade(old(State()), now, first)
      ensures r.Failure? <==> UpdateFails(old(State()), now, first, retry)
      ensures r.Failure? ==> r.error == AuthenticationFailed
      ensures r.Success? ==>
        bearerResponse.Some? &&
        r.value == HttpRequest(Get, baseUrl + endpoint, DefaultHeaders(bearerResponse.value.accessToken), params, [])
    {
      LowerEqualsWord("get", "get");
      r := Request("get", baseUrl + endpoint, [], params, [], now, first, retry);
    }

    /** `api_post_request`: a POST of `data` to the API root plus `endpoint`. */
    method ApiPostRequest(endpoint: string, data: Pairs, headers: Pairs,
                          now: int, first: FetchOutcome, retry: FetchOutcome)
      returns (r: Result<HttpRequest, Error>)
      modifies this`bearerResponse, this`bearerExpiresAt, this`fetches, this`updates
      ensures headers != [] ==>
        updates == old(updates) && fetches == old(fetches) && State() == old(State()) &&
        r == Success(HttpRequest(Post, baseUrl + endpoint, headers, [], data))
      ensures headers == [] ==>
        updates == old(updates) + 1 &&
        State() == Updated(old(State()), now, first, retry) &&
        fetches == old(fetches) + FetchesMade(old(State()), now, first) &&
        (r.Failure? <==> UpdateFails(old(State()), now, first, retry)) &&
        (r.Success? ==>
           bearerResponse.Some? && r.value ==
           HttpRequest(Post, baseUrl + endpoint, DefaultHeaders(bearerResponse.value.accessToken), [], data))
    {
      LowerEqualsWord("post", "get");
      LowerEqualsWord("post", "post");
      r := Request("post", baseUrl + endpoint, headers, [], data, now, first, retry);
    }

    /** One public wrapper method. Every operation calls `update_bearer` exactly
        once: all but `order` through `_request`, `order` itself before it
        passes its own headers. */
    method Call(op: Operation, now: int, first: FetchOutcome, retry: FetchOutcome)
      returns (r: Result<HttpRequest, Error>)
      modifies this`bearerResponse, this`bearerExpiresAt, this`fetches, this`updates
      ensures updates == old(updates) + 1
      ensures State() == Updated(old(State()), now, first, retry)
      ensures fetches == old(fetches) + FetchesMade(old(State()), now, first)
      ensures r.Failure? <==> UpdateFails(old(State()), now, first, retry)
      ensures r.Failure? ==> r.error == AuthenticationFailed
      ensures r.Success? ==>
        bearerResponse.Some? &&
        r.value.url == baseUrl + Endpoint(op) &&
        r.value.verb == (if op.Order? then Post else Get) &&
        r.value.headers == (if op.Order? then OrderHeaders(apiVersion, bearerResponse.value.accessToken)
                            else DefaultHeaders(bearerResponse.value.accessToken)) &&
        r.value.params == QueryParams(op) &&
        r.value.body == (if op.Order? then op.orderData else [])
    {
      if op.Order? {
        var ok := UpdateBearer(now, first, retry);
        if !ok {
          return Failure(AuthenticationFailed);
        }
        var headers := OrderHeaders(apiVersion, bearerResponse.value.accessToken);
        r := ApiPostRequest(Endpoint(op), op.orderData, headers, now, first, retry);
      } else {
        r := ApiGetRequest(Endpoint(op), QueryParams(op), now, first, retry);
      }
    }
  }

  /** A client built with the default arguments targets the production API,
      succeeds on its first call when the token fetch does, carries the fetched
      token, and sends the version-1 Accept header on every operation,
      `order` included. */
  method FirstCallFetches(clientId: string, clientSecret: string, op: Operation,
                          now: int, b: BearerResponse, retry: FetchOutcome)
    returns (r: Result<HttpRequest, Error>)
    ensures r.Success? && r.value.url == ProductionBaseUrl + Endpoint(op)
    ensures Lookup(r.value.headers, "Authorization") == Some("Bearer " + b.accessToken)
    ensures Lookup(r.value.headers, "Accept") == Some(DefaultAccept)
  {
    var client := new ReloadlyGCIO(clientId, clientSecret);
    r := client.Call(op, now, Fetched(b), retry);
    OrderAcceptMatchesDefaultOnlyForVersionOne(1, b.accessToken);
  }
}
