# ReloadlyGCIO token cache and request shaping, in Dafny

This project models the core of `reloadlyio`, a Python client for the Reloadly
gift-card API. The client fetches an OAuth2 bearer token with the
client-credentials grant and caches it with an expiry time. It then wraps
fourteen REST endpoints, each turned into one HTTP request that carries the token.

The model has three modules.

- `Wrappers` (`wrappers.dfy`): `Option` and `Result`.
- `Text` (`text.dfy`): the Python string operations the client relies on.
  `IntToString` is `str(n)` for an `int` of at most 4300 digits, which is what an f-string inserts for
  `{productid}` or `{self.api_version}`. It is proved injective through its
  inverse `ParseInt`. `Lower` is `str.lower()` on ASCII letters.
  `SameIgnoringCase` is an independent definition of case-insensitive spelling.
- `Reloadly` (`reloadly.dfy`): the client itself.
  - `ReloadlyGCIO` is a class with the two mutable fields `bearerResponse` and
    `bearerExpiresAt`. It also has two ghost counters: `fetches` counts calls to
    the authorization server and `updates` counts calls of `update_bearer`.
  - The current time `now` is an integer parameter.
  - What the authorization server answers is an input, a `FetchOutcome`: a
    token record, or a raise. A raise is either `TypeError` or another error.
    `TypeError` is what the expiry arithmetic `result["expires_in"] - 1` raises
    on an answer that is not a JSON object (null, a number, a boolean, a
    string, an array), or on an object whose `expires_in` is neither a number
    nor a boolean. A Python `bool` subtracts like an int, so an `expires_in`
    of `true` or `false` is a `Fetched` answer with `expiresIn` 1 or 0.
    Every other raise is `OtherError`: a transport or decode failure, or an
    object with no `expires_in` key (a `KeyError`).
    Each update takes two outcomes: `first` for its first call to the
    server, and `retry` for the second call that `except TypeError` makes.
  - A request is not sent. Each method returns the `HttpRequest` value (verb,
    URL, headers, query parameters, body) that would be handed to the HTTP layer.
  - The pure function `Updated` is the specification of `update_bearer` on a
    `TokenState`. `Run` and `FetchCount` extend it to a series of calls.

## What the token logic does, as written

`update_bearer` fetches in two cases. The first is when no token is held. The
second is when a token is held and `expires_at > now`. This is the reverse of
the rule its own docstring states ("if it expired"). The model keeps the
comparison as written, in `NeedsFetch`. The lemmas show what follows from it:

- `TwoCallsInWindowFetchTwice`: two calls within a token's lifetime fetch twice.
- `ExpiredTokenIsNeverRefreshed`: once the clock reaches the stored expiry, no
  later call fetches, and the expired token is used from then on.

There is also the case where a token is held but the expiry is unset
(`else: pass`). Then nothing happens, and `UnsetExpiryIsNeverRefreshed` shows
that this lasts forever. `RunKeepsConsistent` and the class's postconditions
show that the client never reaches that state by its own operations. Only a
caller that assigns the public fields directly can reach it.

Two behaviours a reader might expect are not what the code does, and the model
follows the code:

- With a token held and the expiry unset, the code does nothing. It does not fetch.
- A request with caller-supplied headers does not call `update_bearer` inside
  `_request`. Only `order` calls it, once, before it builds its headers.

Every wrapper operation therefore calls `update_bearer` exactly once (`Call`).

The refetch for a held token sits inside `try ... except TypeError`, and the
handler fetches again. So a refetch whose answer raises `TypeError` is followed
by a second call to the authorization server, and the update acts on what that
second call yields (`Retries`, `FetchesMade`, `Decisive`). The fetch for a
missing token is outside the `try`, so it is never repeated.

## Model

| member | source | states |
|---|---|---|
| `Reloadly.BaseUrl` | src/reloadlyio/reloadlygcio.py:16-17 | the base URL is `https://giftcards-sandbox.reloadly.com/` exactly when test mode is on, and `https://giftcards.reloadly.com/` exactly when it is off |
| `Reloadly.ReloadlyGCIO.constructor` | src/reloadlyio/reloadlygcio.py:11-22 | test mode defaults to off and the API version to 1; credentials and API version are stored; the base URL follows test mode; no token and no expiry are held; nothing has been fetched |
| `Reloadly.AuthRequestBodyFields` | src/reloadlyio/reloadlygcio.py:35-40 | the grant body has exactly four fields: `client_id`, `client_secret`, `grant_type` = `client_credentials`, and `audience` = the given audience |
| `Reloadly.AuthRequestBody` | src/reloadlyio/reloadlygcio.py:35-40 | the grant body as an ordered dictionary: client id, client secret, grant type `client_credentials`, audience |
| `Reloadly.AuthRequest` | src/reloadlyio/reloadlygcio.py:33-48 | the POST to the OAuth token URL with the two JSON headers of lines 42-45 and the grant body |
| `Reloadly.AuthRequestShape` | src/reloadlyio/reloadlygcio.py:33-48 | the token request is a POST to `https://auth.reloadly.com/oauth/token` with JSON Content-Type and Accept headers, the client-credentials grant, and the API base URL as audience |
| `Reloadly.Decisive` | src/reloadlyio/reloadlygcio.py:61-65 | the fetch outcome an update acts on: the retry's when the refetch raised `TypeError` and the handler fetched again, the first call's otherwise |
| `Reloadly.UpdateFails` | src/reloadlyio/reloadlygcio.py:58-65 | `update_bearer` raises exactly when it had to fetch and the fetch it acts on raised |
| `Reloadly.ExpiresAt` | src/reloadlyio/reloadlygcio.py:50 | the expiry of a token fetched at `now`: `now + (expires_in - 1)` |
| `Reloadly.ReloadlyGCIO.GetBearerResponse` | src/reloadlyio/reloadlygcio.py:24-52 | one call to the authorization server, sending the auth request; on success it returns the token and the expiry `now + expires_in - 1`; on a raise it returns which kind was raised; the token fields are not touched |
| `Reloadly.NeedsFetch` | src/reloadlyio/reloadlygcio.py:58-63 | whether `update_bearer` calls the server: no token held, or a token held whose expiry is later than now, as written |
| `Reloadly.Retries` | src/reloadlyio/reloadlygcio.py:60-65 | whether, with a token held whose expiry is later than now, the refetch raised `TypeError`, so that the handler fetches a second time |
| `Reloadly.FetchesMade` | src/reloadlyio/reloadlygcio.py:58-65 | how many calls to the server one update makes: none when no fetch is needed, two when the refetch is retried, one otherwise |
| `Reloadly.Updated` | src/reloadlyio/reloadlygcio.py:55-67 | the state after one update: replaced by the token the decisive call yields and its expiry, or unchanged when no fetch is needed or the decisive call raised |
| `Reloadly.ReloadlyGCIO.UpdateBearer` | src/reloadlyio/reloadlygcio.py:55-67 | the new state is `Updated` of the old one. No token held: exactly one fetch, never retried, and on success both fields are set from it. Token held and expiry later than now: one fetch that replaces both fields, or, when it raises `TypeError`, a second fetch whose answer decides. Expiry not later than now, or unset: no fetch and no change. A raise changes nothing. Consistency of the two fields is preserved |
| `Reloadly.UpdatedKeepsConsistent` | src/reloadlyio/reloadlygcio.py:58-63 | one update keeps "token set exactly when expiry set", and an update that does not raise always leaves a token |
| `Reloadly.RunKeepsConsistent` | src/reloadlyio/reloadlygcio.py:55-67 | from a consistent state, no series of updates reaches "token held, expiry unset" |
| `Reloadly.ExpiredTokenIsNeverRefreshed` | src/reloadlyio/reloadlygcio.py:60-63 | once every call's time is at or past the stored expiry, the state never changes and no call fetches |
| `Reloadly.UnsetExpiryIsNeverRefreshed` | src/reloadlyio/reloadlygcio.py:60-67 | a token held with no expiry is never replaced and never fetched again |
| `Reloadly.TwoCallsInWindowFetchTwice` | src/reloadlyio/reloadlygcio.py:50-65 | starting with no token, a second call before the first token's expiry fetches again: two calls make two fetches, or three when the refetch raises `TypeError` |
| `Reloadly.MethodKind` | src/reloadlyio/reloadlygcio.py:82-91 | the verb is GET exactly when it spells "get" in any mix of cases, POST exactly when it spells "post", and none otherwise |
| `Text.LowerEqualsWord` | src/reloadlyio/reloadlygcio.py:82-86 | lower-casing a string gives a lower-case word exactly when the string spells that word with each letter in either case |
| `Text.Lower` | src/reloadlyio/reloadlygcio.py:82 | lower-casing keeps the length and maps each character by ASCII lower-casing |
| `Reloadly.DefaultHeaders` | src/reloadlyio/reloadlygcio.py:75-78 | the default headers are exactly two: Accept `application/com.reloadly.giftcards-v1+json` and Authorization `Bearer <token>`, with no Content-Type |
| `Reloadly.AcceptFor` | src/reloadlyio/reloadlygcio.py:342 | the versioned Accept header `application/com.reloadly.giftcards-v<version>+json`, with the version rendered by `str` |
| `Reloadly.BearerAuthorization` | src/reloadlyio/reloadlygcio.py:77 | the Authorization value is `Bearer ` followed by the token, and the token is what follows that prefix |
| `Reloadly.OrderHeaders` | src/reloadlyio/reloadlygcio.py:340-344 | the order headers are exactly three: Content-Type `application/json`, Accept carrying the configured API version, and Authorization `Bearer <token>` |
| `Reloadly.OrderAcceptMatchesDefaultOnlyForVersionOne` | src/reloadlyio/reloadlygcio.py:342 | the order Accept header equals the fixed Accept header of every other call exactly when the API version is 1 |
| `Text.IntToStringRoundTrip` | src/reloadlyio/reloadlygcio.py:197 | the decimal rendering of an integer parses back to that integer |
| `Text.IntToStringInjective` | src/reloadlyio/reloadlygcio.py:286 | two integers render to the same text exactly when they are equal |
| `Text.IntToString` | src/reloadlyio/reloadlygcio.py:197 | `str(i)`: a non-empty string that starts with a minus sign exactly when `i` is negative, followed by the digits of its magnitude |
| `Text.NatToString` | src/reloadlyio/reloadlygcio.py:363 | a non-negative integer renders as a non-empty string of digits with no leading zero |
| `Reloadly.Endpoint` | src/reloadlyio/reloadlygcio.py:125-363 | the path string of each of the fourteen wrapper methods, each a non-empty relative path that does not start with '/' |
| `Reloadly.QueryParams` | src/reloadlyio/reloadlygcio.py:177-269 | `products` passes its parameters through, `discounts` sends `size` and `page`, and every other operation sends none |
| `Reloadly.EndpointDeterminesId` | src/reloadlyio/reloadlygcio.py:197-363 | for each operation with a numeric id, the endpoint path determines the id |
| `Reloadly.IsoCodePathsCanCollide` | src/reloadlyio/reloadlygcio.py:158-216 | ISO codes are inserted unescaped: for every code `c`, `country_by_isocode(c + "/products")` and `product_by_isocode(c)` request the same path |
| `Reloadly.ReloadlyGCIO.Request` | src/reloadlyio/reloadlygcio.py:69-91 | with no headers, `update_bearer` runs first and the default headers with the current token are used, and a failed fetch fails the request. Supplied headers are used verbatim and the token state is untouched. A verb other than get/post fails with `UnsupportedMethod` |
| `Reloadly.ReloadlyGCIO.ApiGetRequest` | src/reloadlyio/reloadlygcio.py:93-113 | a GET of `base_url + endpoint` with the default headers, after exactly one `update_bearer` |
| `Reloadly.ReloadlyGCIO.ApiPostRequest` | src/reloadlyio/reloadlygcio.py:97-106 | a POST of the data to `base_url + endpoint`; with headers supplied it uses them and leaves the token and the fetch count alone, and without headers it makes one update, with its fetch count, and uses the default headers |
| `Reloadly.ReloadlyGCIO.Call` | src/reloadlyio/reloadlygcio.py:115-366 | every wrapper operation calls `update_bearer` exactly once and targets `base_url + endpoint` with that operation's path. `order` is a POST of the order data with the versioned order headers. Every other operation is a GET with the default headers. `discounts` sends `size` and `page`, and `products` passes its parameters through. A request fails exactly when the token fetch it needed failed |
| `Reloadly.FirstCallFetches` | src/reloadlyio/reloadlygcio.py:11-78 | a client built with the default arguments targets the production API; its first call succeeds when the fetch does, carries the fetched token, and sends the version-1 Accept header on every operation, `order` included |

## Left out

- Network I/O: the aiohttp sessions, the GET/POST calls and `response.json()`. They are an external library. A request is modelled by the `HttpRequest` it describes, and the decoded JSON response is not modelled.
- Response decoding failures of the resource endpoints are not modelled. Token fetch failures are modelled as a `Raised` outcome, with `TypeError` kept apart from every other raise, because only `TypeError` is caught.
- The clock: `time.time().__int__()` is the integer parameter `now`.
- The `TypeError` handler (reloadlygcio.py:64-65) is modelled only for a `TypeError` raised by the refetch at line 63. The comparison at line 62 could also raise it, but only for a stored expiry that is not a number, and the model's expiry is always an integer.
- Time is read more than once in one update: at the comparison (line 62), and at line 50 after the network round trip of each fetch. The model uses one `now` for all of these reads.
- async/await and the race where two concurrent callers both see "no token" and both fetch. Calls are modelled one after another.
- `json.dumps` of the order data and of the grant body (src/reloadlyio/reloadlygcio.py:47). Both are kept as key/value pairs: the order data as the caller passes it, the grant body as `AuthRequestBody` builds it.
- The `**kwargs` pass-through to the HTTP layer, including the `*kwargs` slip at reloadlygcio.py:320. Only `params` of `products` and `discounts` is modelled.
- Logging in `get` and `post` (reloadlygcio.py:94, 98). These two methods only log and forward, so they are folded into `ApiGetRequest` and `ApiPostRequest`.
- `Text.IntToString`: Python 3.11 and later (the source imports `typing.Required`) raise `ValueError` when `str` renders an integer of more than 4300 digits; this function is total. The `ValueError` path of the id wrappers (src/reloadlyio/reloadlygcio.py:197, 242, 286, 319, 363), raised before `update_bearer` runs, and of `order` (line 342, raised after it) is not modelled, so `Call`'s single `update_bearer` and its request describe ids and API versions under that limit.
- `Text.Lower`: models `str.lower()` on ASCII letters only. No other Unicode character lower-cases to one of the letters of "get" or "post", so the verb comparison is unaffected.
- `Reloadly.Lookup`: takes the first entry with a key, while a Python dict keeps the last. Every dictionary the client builds has distinct keys, so the two agree.
- src/reloadlyio/types.py declares types only. `BearerResponse` is borrowed as a record. The parameter and order types become plain key/value pairs.
- src/reloadlyio/errors.py: `InvalidCredentials` is declared but never raised, so it is not modelled.
