/** The request handler (index.ts, lines 46-120): the preflight short cut,
    the payload, the token, and the mapping of the upstream search response
    to the reply. The upstream search call is a parameter: the handler's
    part is what it forwards and what it makes of the answer. */
module FlightSearch {
  import opened Wrappers
  import opened SearchPayload
  import opened Tokens

  /** The `detail` of an API error: the upstream text parsed as JSON when
      it parses (`D` stands for a parsed JSON value), the raw text when not. */
  datatype Detail<D> = Parsed(json: D) | Raw(text: string)

  /** What a caught exception was; its string form is not modelled. */
  datatype UncaughtCause =
    | BodyNotJson          // `req.json()` threw
    | ArrayLengthInvalid   // `Array.from` threw a RangeError
    | TokenErrorThrown     // `getAccessToken` threw its TOKEN_ERROR response
    | StatusRejected       // `new Response` refused the upstream status

  datatype ReplyBody<D> =
    | Verbatim(text: string)
    | ApiError(status: int, detail: Detail<D>)
    | Uncaught(cause: UncaughtCause)

  datatype Reply<D> = Reply(status: int, body: ReplyBody<D>, jsonContentType: bool)

  /** The upstream search answer: its status, its text, and what `JSON.parse`
      makes of that text (`None` when it throws). */
  datatype UpstreamResponse<D> = UpstreamResponse(status: int, text: string, parsed: Option<D>)

  /** An inbound request: a CORS preflight, or any other method with the
      body parsed as a search request (`None` when it is not JSON). */
  datatype Inbound = Preflight | WithBody(body: Option<SearchRequest>)

  /** The search call the handler makes: the body and the bearer token. */
  datatype Forwarded = Forwarded(payload: Payload, bearerToken: string)

  /** `Response.ok`: a status in the range 200-299. */
  predicate IsOk(status: int) {
    200 <= status <= 299
  }

  /** The statuses `new Response(body, { status })` accepts when it is given
      a body: 200-599 except the null-body statuses 204, 205 and 304. A
      status outside 200-599 throws a RangeError, a null-body one a TypeError. */
  predicate ResponseAccepts(status: int) {
    200 <= status <= 599 && status != 204 && status != 205 && status != 304
  }

  /** `safeJson` (lines 122-124). */
  function SafeJson<D>(text: string, parsed: Option<D>): (d: Detail<D>)
    ensures parsed.None? ==> d == Raw(text)
    ensures parsed.Some? ==> d == Parsed(parsed.value)
  {
    match parsed
    case Some(json) => Parsed(json)
    case None => Raw(text)
  }

  /** Lines 106-118: a failed search keeps its status and is wrapped in an
      API_ERROR envelope, unless `new Response` refuses that status, which the
      catch turns into UNCAUGHT; a successful one is passed through as 200. */
  function Classify<D>(res: UpstreamResponse<D>): (r: Reply<D>)
    ensures r.jsonContentType
    ensures IsOk(res.status) ==> r.status == 200 && r.body == Verbatim(res.text)
    ensures !IsOk(res.status) && ResponseAccepts(res.status) ==>
              r.status == res.status && r.body == ApiError(res.status, SafeJson(res.text, res.parsed))
    ensures !IsOk(res.status) && !ResponseAccepts(res.status) ==>
              r.status == 500 && r.body == Uncaught(StatusRejected)
  {
    if IsOk(res.status) then Reply(200, Verbatim(res.text), true)
    else if ResponseAccepts(res.status) then
      Reply(res.status, ApiError(res.status, SafeJson(res.text, res.parsed)), true)
    else UncaughtReply(StatusRejected)
  }

  /** The caller sees 200 exactly when the search succeeded, and then the
      upstream text unchanged; otherwise an envelope whose status is the
      reply's own, and UNCAUGHT exactly for the statuses `Response` refuses. */
  lemma ClassifyStatus<D>(res: UpstreamResponse<D>)
    ensures Classify(res).status == 200 <==> IsOk(res.status)
    ensures Classify(res).body.Verbatim? <==> IsOk(res.status)
    ensures Classify(res).body.Verbatim? ==> Classify(res).body.text == res.text
    ensures Classify(res).body.ApiError? ==> Classify(res).body.status == Classify(res).status
    ensures Classify(res).body.Uncaught? <==> !IsOk(res.status) && !ResponseAccepts(res.status)
  {
  }

  /** An upstream 304 cannot be wrapped in an envelope: the caller gets 500
      UNCAUGHT, while a 404 keeps its status. */
  lemma NotModifiedIsUncaught<D>(text: string, parsed: Option<D>)
    ensures Classify(UpstreamResponse(304, text, parsed)) == UncaughtReply(StatusRejected)
    ensures Classify(UpstreamResponse(404, text, parsed)).status == 404
  {
  }

  /** Line 47: the preflight answer, "ok" with the CORS headers only. */
  function PreflightReply<D>(): (r: Reply<D>)
    ensures r.status == 200 && !r.jsonContentType && r.body == Verbatim("ok")
  {
    Reply(200, Verbatim("ok"), false)
  }

  /** Lines 116-118: any exception becomes a 500 UNCAUGHT envelope. */
  function UncaughtReply<D>(cause: UncaughtCause): (r: Reply<D>)
    ensures r.status == 500 && r.jsonContentType && r.body == Uncaught(cause)
  {
    Reply(500, Uncaught(cause), true)
  }

  /** One request through the handler. `tokenCall` is the clock and grant
      outcome `getAccessToken` would see, `upstream` the search answer. */
  method Handle<D>(cache: TokenCache, req: Inbound, tokenCall: Call, upstream: UpstreamResponse<D>)
    returns (reply: Reply<D>, granted: bool, forwarded: Option<Forwarded>)
    modifies cache
    // the preflight touches nothing and calls nothing
    ensures req.Preflight? ==>
              reply == PreflightReply() && !granted && forwarded.None? && cache.cached == old(cache.cached)
    // a body that is not JSON fails before any call
    ensures req == WithBody(None) ==>
              reply == UncaughtReply(BodyNotJson) && !granted && forwarded.None? && cache.cached == old(cache.cached)
    // too many travellers fail before any call
    ensures req.WithBody? && req.body.Some? && BuildPayload(req.body.value).Err? ==>
              reply == UncaughtReply(ArrayLengthInvalid) && !granted && forwarded.None? &&
              cache.cached == old(cache.cached)
    // otherwise the token step runs once; its failure surfaces as UNCAUGHT,
    // its success forwards the built body and relays the answer
    ensures req.WithBody? && req.body.Some? && BuildPayload(req.body.value).Ok? ==>
              var o := Step(old(cache.cached), tokenCall);
              cache.cached == o.cache && granted == o.granted &&
              (o.result.Err? ==> reply == UncaughtReply(TokenErrorThrown) && forwarded.None?) &&
              (o.result.Ok? ==>
                 forwarded == Some(Forwarded(BuildPayload(req.body.value).value, o.result.value)) &&
                 reply == Classify(upstream))
  {
    forwarded := None;
    granted := false;
    match req
    case Preflight =>
      reply := PreflightReply();
    case WithBody(None) =>
      reply := UncaughtReply(BodyNotJson);
    case WithBody(Some(q)) =>
      var built := BuildPayload(q);
      if built.Err? {
        return UncaughtReply(ArrayLengthInvalid), false, None;
      }
      var body := built.value;
      var token;
      token, granted := cache.GetAccessToken(tokenCall.now, tokenCall.grant, tokenCall.nowAfterGrant);
      match token
      case Err(_) =>
        reply := UncaughtReply(TokenErrorThrown);
      case Ok(bearer) =>
        forwarded := Some(Forwarded(body, bearer));
        reply := Classify(upstream);
  }
}
