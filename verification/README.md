# Amadeus flight-search edge function, modelled in Dafny

The system is a single edge function. It takes a simplified flight-search
request, obtains an OAuth2 client-credentials token from the Amadeus API and
caches it, translates the request into Amadeus' flight-offer search body,
forwards it, and relays the answer or an error envelope to the caller.

The model has five modules. `Wrappers` (`wrappers.dfy`) holds the shared
`Option` and `Result` types. The other four are:

- `SearchPayload` (`search_payload.dfy`): the request as a datatype with
  `Option` fields and the builder `BuildPayload`. The builder either fails
  on the traveller array's length or gives the body `SearchBody`.
  `SearchBody` is written as the same four steps the handler takes: the base
  body, the return leg, the connection limit and the cabin restriction. JavaScript truthiness is
  explicit. An optional text field counts as given when it is present and
  non-empty (`Given`). A missing `adults` means 1. `Number(max) || 50`
  turns a missing or zero `max` into 50. `Array.from` clamps a negative
  length to 0.
- `Decimal` (`decimal.dfy`): `String(i + 1)` for the traveller ids, as the
  decimal text of a natural number, with a parser proved to invert it.
- `Tokens` (`tokens.dfy`): the module-level `cachedToken` as the class
  `TokenCache` with one `Option` field. `getAccessToken` is its method. The
  method is specified by the pure function `Step`. `Replay` chains calls
  one after another, so reuse and refresh can be stated over many calls.
  Each call takes three inputs: the clock before the grant, the grant's
  outcome, and the clock read again after the grant. The expiry is computed
  from that second reading, as at line 36.
- `FlightSearch` (`flight_search.dfy`): the mapping of the upstream search
  answer to the reply, and the handler `Handle`. `Handle` says what is
  forwarded (body and bearer token), whether a grant was asked for, and
  what the caller receives.

Three behaviours of the code are worth stating on their own:

- The preflight reply carries the body "ok" (index.ts:47).
- A failed grant throws a `TOKEN_ERROR` response (index.ts:27). The catch
  at index.ts:116-118 turns it into a 500 `UNCAUGHT` reply, so the caller
  never sees `TOKEN_ERROR`.
- Two other exceptions also end in that catch. `Array.from` throws a
  RangeError for more than 2^32 - 1 travellers (index.ts:72).
  `new Response` refuses a status outside 200-599, or a null-body status
  such as 304, when it is given the API_ERROR envelope (index.ts:110-113).
  Both become 500 `UNCAUGHT` replies, before any grant in the first case.

## Model

| member | source | states |
|---|---|---|
| `SearchPayload.BuildPayload` | supabase/functions/amadeus-flight-search/index.ts:50-97 | Building fails with an invalid-array-length error iff more than 2^32 - 1 travellers are asked for. Otherwise the result is the body `SearchBody` describes. |
| `SearchPayload.SearchBody` | supabase/functions/amadeus-flight-search/index.ts:62-97 | For a request whose traveller array fits: currency defaults to THB and sources are ["GDS"]. The offer cap is at most 250. There is one leg "1" out, plus a leg "2" with the ends swapped and the return date iff a return date is given. The travellers are numbered "1".."n" as ADULT. There is a connection limit iff `nonStop` is a boolean: 0 when true, 3 when false. There is a MOST_SEGMENTS cabin restriction iff a travel class is given, and it names exactly the ids of the legs built. |
| `SearchPayload.MaxFlightOffers` | supabase/functions/amadeus-flight-search/index.ts:77 | The cap never exceeds 250. It is 50 when `max` is missing or 0, `max` when `max` is at most 250, and 250 above that. |
| `SearchPayload.TravelerCount` | supabase/functions/amadeus-flight-search/index.ts:72 | The number of travellers: 1 when `adults` is missing, `adults` when it is non-negative, 0 when it is negative. |
| `SearchPayload.Travelers` | supabase/functions/amadeus-flight-search/index.ts:72-75 | Exactly n entries, and entry i is an ADULT with id `String(i + 1)`. |
| `SearchPayload.ReturnLegIdIffReturnDate` | supabase/functions/amadeus-flight-search/index.ts:80-96 | Itinerary id "2" exists iff a return date is given. A cabin restriction names "2" iff that leg exists. |
| `SearchPayload.TravelerIdsDistinct` | supabase/functions/amadeus-flight-search/index.ts:72-75 | No two travellers of a built body share an id. |
| `SearchPayload.OneWayTwoAdults` | supabase/functions/amadeus-flight-search/index.ts:50-78 | A one-way BKK to NRT request for 2 adults builds a body with one leg, travellers "1" and "2", currency THB, cap 50, and no restrictions. |
| `SearchPayload.TooManyAdults` | supabase/functions/amadeus-flight-search/index.ts:72 | A request for 2^32 adults builds no body. |
| `Decimal.DecimalString` | supabase/functions/amadeus-flight-search/index.ts:73 | The id text is all digits and never empty. It starts with '0' iff the number is 0. |
| `Decimal.ParseDecimalString` | supabase/functions/amadeus-flight-search/index.ts:73 | Parsing the decimal text of n gives n back. |
| `Decimal.DecimalStringInjective` | supabase/functions/amadeus-flight-search/index.ts:73 | Two numbers have the same decimal text iff they are equal. |
| `Tokens.Lifetime` | supabase/functions/amadeus-flight-search/index.ts:36 | The token lifetime is `expires_in`, or 1500 seconds when `expires_in` is missing or 0. |
| `Tokens.Step` | supabase/functions/amadeus-flight-search/index.ts:11-38 | A grant is asked for iff the cached token is missing or `expires_at - 30 > now` fails. Without a grant, the cached token is returned and the cache is unchanged. A failed grant gives TOKEN_ERROR with the endpoint's text and leaves the cache unchanged. A successful grant returns the new token and stores it with `expires_at` = the second clock reading + lifetime. |
| `Tokens.Replay` | supabase/functions/amadeus-flight-search/index.ts:9-38 | Successive calls give one result per call and at most one grant per call. A call fails only when its own grant failed, with that grant's text. A run without grants returns a token on every call. |
| `Tokens.LastWriterWins` | supabase/functions/amadeus-flight-search/index.ts:9-38 | A call writes the cache when it asked for a grant and the grant succeeded. After a run with no write, the cache is what it was. After a run whose last write is call i, the cache holds the token call i stored, with its expiry. |
| `Tokens.WrittenUntilNextWrite` | supabase/functions/amadeus-flight-search/index.ts:33-37 | Once call i writes, every later call up to the next write finds call i's token in the cache. |
| `Tokens.NoWriteKeepsCache` | supabase/functions/amadeus-flight-search/index.ts:12-31 | Calls that do not write, whether they reused the token or their grant failed, leave the cache as they found it. |
| `Tokens.ReplayAppend` | supabase/functions/amadeus-flight-search/index.ts:9-38 | One more call after a run acts on the cache the run left. |
| `Tokens.ReuseWithinWindow` | supabase/functions/amadeus-flight-search/index.ts:12-13 | Take any run of calls made more than 30 s before the cached token's expiry. It makes no grant, returns that token every time and leaves the cache as it was. |
| `Tokens.RefreshThenReuse` | supabase/functions/amadeus-flight-search/index.ts:12-38 | A call on a stale cache whose grant succeeds makes exactly one grant, even when followed by calls inside the new window. Every one of those calls returns the new token, and the new token stays cached. |
| `Tokens.TokenCache.constructor` | supabase/functions/amadeus-flight-search/index.ts:9 | The cache starts empty. |
| `Tokens.TokenCache.GetAccessToken` | supabase/functions/amadeus-flight-search/index.ts:11-38 | The returned token, the grant flag and the new cache are those of `Step` on the old cache. Without a grant, the old token comes back and the cache is unchanged. After an error, the cache is unchanged. |
| `FlightSearch.SafeJson` | supabase/functions/amadeus-flight-search/index.ts:122-124 | The detail is the parsed JSON when the text parses, and the raw text otherwise. |
| `FlightSearch.Classify` | supabase/functions/amadeus-flight-search/index.ts:106-118 | An ok upstream status comes back as 200 with the upstream text verbatim. A non-ok status that `Response` accepts comes back as that status with an API_ERROR envelope carrying the status and the detail. A non-ok status outside 200-599, or 304, comes back as 500 UNCAUGHT. All are JSON. |
| `FlightSearch.ClassifyStatus` | supabase/functions/amadeus-flight-search/index.ts:109-118 | The reply is 200 iff the upstream status is in 200-299, and only then is the text passed through. An envelope's status equals the reply's status. The reply is UNCAUGHT iff the status is non-ok and refused by `Response`. |
| `FlightSearch.NotModifiedIsUncaught` | supabase/functions/amadeus-flight-search/index.ts:110-118 | An upstream 304 reaches the caller as 500 UNCAUGHT, while a 404 keeps its status. |
| `FlightSearch.PreflightReply` | supabase/functions/amadeus-flight-search/index.ts:47 | A preflight gets 200 with the body "ok" and without the JSON content type. |
| `FlightSearch.UncaughtReply` | supabase/functions/amadeus-flight-search/index.ts:116-118 | A caught exception becomes a 500 UNCAUGHT JSON reply that carries the cause. |
| `FlightSearch.Handle` | supabase/functions/amadeus-flight-search/index.ts:46-120 | A preflight makes no call and changes no cache. A body that is not JSON, or one asking for too many travellers, gives UNCAUGHT before any call. Otherwise the token step runs once. If it fails, the reply is UNCAUGHT and nothing is forwarded. If it succeeds, the built body is forwarded with that bearer token and the upstream answer is classified. |

## Left out

- Network calls, the `Deno.serve` runtime and `Response` objects are not modelled, beyond which statuses the `Response` constructor refuses. The grant's outcome, the search answer (status, text and its JSON parse) and the clock readings are inputs.
- Configuration is not modelled: the environment reads, the sandbox/production host choice and the client id and secret (lines 1-7). The form encoding of the client-credentials grant (section 4.4 of RFC 6749) is not modelled either.
- The CORS header strings (lines 41-44) are constants, and the model does not attach them to replies. A reply only records whether it has the JSON content type.
- JSON handling is not modelled: `JSON.parse`, `JSON.stringify` and `String(e)`. A parsed JSON value is an abstract type parameter, and an exception's text is an abstract cause (`UncaughtCause`). A body that is not JSON is one abstract outcome.
- JavaScript coercions are not modelled. Request fields have fixed types: text fields are strings, `adults` and `max` are integers, and `nonStop` is `Some` only for a real boolean. A `max` that is NaN, a non-integer `adults`, a non-string `travelClass`, and `null` where a default would apply are outside the model. `Math.floor(Date.now() / 1000)` is an integer input.
- Concurrency is not modelled: calls to the token cache are sequential. Requests that race on a refresh, each granting and the last write winning, are outside the model.
