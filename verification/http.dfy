/**
 * Error normalisation and the ModMed client's interceptors (src/lib/http.ts).
 *
 * Every request to the ModMed FHIR API is stamped with a bearer token from the
 * token cache; a 401 answer makes the response interceptor refresh the token
 * and reissue the request once from that interceptor.  Network outcomes are
 * parameters: the grant responses the token endpoint gives and what the
 * reissued request returns.
 */
module Http {
  import opened Wrappers
  import opened ModmedAuth

  type Headers = map<string, string>

  /** An axios request config: where it goes and its (possibly absent) headers. */
  datatype RequestConfig = RequestConfig(url: string, headers: Option<Headers>)

  /** A JSON response body: its `message` field, if any, and the rest of it. */
  datatype Body = Body(message: Option<string>, rest: string)

  datatype HttpResponse = HttpResponse(status: int, data: Option<Body>)

  /** What a failed call throws: an axios error (with its response, if one came back) or anything else. */
  datatype Thrown =
    | AxiosError(message: string, response: Option<HttpResponse>, config: Option<RequestConfig>)
    | OtherError

  /** `ApiError`. */
  datatype ApiError = ApiError(status: int, message: string, details: Option<Body>)

  /** The outcome of a request through the client. */
  datatype CallResult = Fulfilled(response: HttpResponse) | Failed(error: Thrown)

  const UnknownErrorMessage := "Unknown error"

  /** `toApiError`: total; status 500 when there is no response or the error is not from axios. */
  function ToApiError(e: Thrown): (r: ApiError)
    ensures e.OtherError? ==> r == ApiError(500, UnknownErrorMessage, None)
    ensures e.AxiosError? && e.response.None? ==> r == ApiError(500, e.message, None)
    ensures e.AxiosError? && e.response.Some? ==>
              && r.status == e.response.value.status
              && r.details == e.response.value.data
              && (r.message == if r.details.Some? && r.details.value.message.Some?
                               then r.details.value.message.value else e.message)
  {
    match e
    case OtherError => ApiError(500, UnknownErrorMessage, None)
    case AxiosError(message, response, _) =>
      var data := if response.Some? then response.value.data else None;
      var bodyMessage := if data.Some? then data.value.message else None;
      ApiError(if response.Some? then response.value.status else 500, bodyMessage.GetOr(message), data)
  }

  /** The status `toApiError` reports is that of the response, and 500 exactly when there is none. */
  lemma ApiErrorStatus(e: Thrown)
    ensures e.AxiosError? && e.response.Some? ==> ToApiError(e).status == e.response.value.status
    ensures !(e.AxiosError? && e.response.Some?) ==> ToApiError(e).status == 500
  {
  }

  const AuthorizationHeader := "Authorization"
  const ApiKeyHeader := "x-api-key"
  const ContentTypeHeader := "Content-Type"
  const AcceptHeader := "Accept"

  /** `` `Bearer ${bearer}` ``: a `null` token prints as "null". */
  function Bearer(token: Option<string>): (r: string)
    ensures token.Some? ==> r == "Bearer " + token.value
    ensures token.None? ==> r == "Bearer null"
  {
    "Bearer " + token.GetOr("null")
  }

  /**
   * The ModMed request interceptor's headers: `config.headers ?? {}` with the
   * bearer token, the API key, JSON content type and FHIR JSON accept set;
   * every other header is kept.
   */
  function ModmedHeaders(headers: Option<Headers>, token: Option<string>, apiKey: string): (r: Headers)
    ensures r.Keys == headers.GetOr(map[]).Keys + {AuthorizationHeader, ApiKeyHeader, ContentTypeHeader, AcceptHeader}
    ensures r[AuthorizationHeader] == Bearer(token)
    ensures r[ApiKeyHeader] == apiKey
    ensures r[ContentTypeHeader] == "application/json"
    ensures r[AcceptHeader] == "application/fhir+json"
    ensures forall k :: k in headers.GetOr(map[]) && k !in {AuthorizationHeader, ApiKeyHeader, ContentTypeHeader, AcceptHeader} ==>
              r[k] == headers.GetOr(map[])[k]
  {
    headers.GetOr(map[])
      [AuthorizationHeader := Bearer(token)]
      [ApiKeyHeader := apiKey]
      [ContentTypeHeader := "application/json"]
      [AcceptHeader := "application/fhir+json"]
  }

  /**
   * The ModMed request interceptor: awaits `getAccessToken()` (with `grant`
   * as the answer of the token endpoint if a grant has to settle) and stamps
   * the headers.  `None` means the token promise rejected, so the request is
   * never sent.
   */
  method AuthorizeRequest(tm: TokenManager, config: RequestConfig, apiKey: string, now: int, grant: GrantResponse)
    returns (sent: Option<RequestConfig>)
    requires Valid(tm.State())
    modifies tm
    ensures Valid(tm.State())
    ensures var s := GetStep(old(tm.State()), now);
            var o := AwaitStep(s.next, s.call, now, grant);
            && tm.State() == o.next
            && sent == if o.settlement.Rejected? then None
                       else Some(config.(headers := Some(ModmedHeaders(config.headers, o.settlement.token, apiKey))))
  {
    var call := tm.GetAccessToken(now);
    var settlement := tm.Await(call, now, grant);
    if settlement.Rejected? {
      return None;
    }
    sent := Some(config.(headers := Some(ModmedHeaders(config.headers, settlement.token, apiKey))));
  }

  /** The response interceptor reacts only to an axios error whose response has status 401. */
  predicate IsUnauthorized(e: Thrown) {
    e.AxiosError? && e.response.Some? && e.response.value.status == 401
  }

  /** `cfg.headers = cfg.headers ?? {}` then the new `Authorization` header. */
  function WithBearer(config: RequestConfig, token: Option<string>): (r: RequestConfig)
    ensures r.url == config.url && r.headers.Some?
    ensures r.headers.value == config.headers.GetOr(map[])[AuthorizationHeader := Bearer(token)]
  {
    config.(headers := Some(config.headers.GetOr(map[])[AuthorizationHeader := Bearer(token)]))
  }

  /** What the 401 path did to the token cache and which request, if any, it reissued. */
  datatype Reaction = Reaction(next: Credential, reissued: Option<RequestConfig>)

  /**
   * The decision of the response interceptor.  On a 401: await
   * `refreshAccessToken()` (its pending grant settles with `refreshGrant`),
   * then `getAccessToken()` (a grant it has to await settles with
   * `tokenGrant`), then reissue the failed request's config with the new
   * bearer.  A rejection at any step, or a missing `error.config`, leaves
   * nothing reissued.  Any other error touches nothing.  Both awaits are
   * on the grant their own call holds, so each settles exactly that grant.
   */
  function ReactToError(c: Credential, error: Thrown, now: int, refreshGrant: GrantResponse, tokenGrant: GrantResponse): (r: Reaction)
    ensures !IsUnauthorized(error) ==> r == Reaction(c, None)
    ensures IsUnauthorized(error) ==> r.next.slot == Idle
    ensures IsUnauthorized(error) && refreshGrant.GrantFailed? ==> r.reissued == None && SameTokens(r.next, c)
    ensures r.reissued.Some? ==>
              && IsUnauthorized(error) && refreshGrant.Granted? && error.config.Some?
              && r.reissued.value == WithBearer(error.config.value, r.next.accessToken)
    ensures IsUnauthorized(error) && refreshGrant.Granted? && error.config.Some? ==>
              var afterRefresh := SettleStep(RefreshStep(c).next, now, refreshGrant);
              (r.reissued.Some? <==> tokenGrant.Granted? || GetStep(afterRefresh.next, now).call.Cached?)
  {
    if !IsUnauthorized(error) then Reaction(c, None)
    else
      var afterRefresh := AwaitStep(RefreshStep(c).next, RefreshStep(c).call, now, refreshGrant);
      if afterRefresh.settlement.Rejected? || error.config.None? then Reaction(afterRefresh.next, None)
      else
        var g := GetStep(afterRefresh.next, now);
        var afterGet := AwaitStep(g.next, g.call, now, tokenGrant);
        if afterGet.settlement.Rejected? then Reaction(afterGet.next, None)
        else Reaction(afterGet.next, Some(WithBearer(error.config.value, afterGet.settlement.token)))
  }

  /**
   * When the refresh hands back a usable token that outlives the safety
   * margin, the reissued request carries exactly that token and no second
   * grant is consulted.
   */
  lemma RefreshedTokenIsReissued(c: Credential, error: Thrown, now: int, refreshGrant: GrantResponse, tokenGrant: GrantResponse)
    requires IsUnauthorized(error) && error.config.Some?
    requires refreshGrant.Granted? && Truthy(refreshGrant.accessToken)
    requires ExpiresInSeconds(refreshGrant) > ExpiryBufferSeconds
    requires now + ExpiresInSeconds(refreshGrant) * 1000 != 0
    ensures ReactToError(c, error, now, refreshGrant, tokenGrant).reissued
              == Some(WithBearer(error.config.value, refreshGrant.accessToken))
  {
    var s := RefreshStep(c);
    FreshRefreshIsCached(s.next, now, refreshGrant);
  }

  /**
   * The ModMed response interceptor.  `reissue` is what the reissued request
   * returns.  Once the request is reissued, the interceptor settles with the
   * reissued request's own outcome, success or failure (the promise is
   * returned, not awaited, inside the `try`).  When the refresh or the token
   * fails, or there is no config, that failure is swallowed and the original
   * error is rejected.
   */
  method OnModmedError(tm: TokenManager, error: Thrown, now: int, refreshGrant: GrantResponse, tokenGrant: GrantResponse, reissue: CallResult)
    returns (result: CallResult, reissued: Option<RequestConfig>)
    requires Valid(tm.State())
    modifies tm
    ensures Valid(tm.State())
    ensures var r := ReactToError(old(tm.State()), error, now, refreshGrant, tokenGrant);
            tm.State() == r.next && reissued == r.reissued
    ensures result == if reissued.Some? then reissue else Failed(error)
    ensures !IsUnauthorized(error) ==> result == Failed(error) && tm.State() == old(tm.State())
  {
    reissued := None;
    if IsUnauthorized(error) {
      var call := tm.RefreshAccessToken();
      var refreshed := tm.Await(call, now, refreshGrant);
      if refreshed.Resolved? && error.config.Some? {
        var getCall := tm.GetAccessToken(now);
        var token := tm.Await(getCall, now, tokenGrant);
        if token.Resolved? {
          reissued := Some(WithBearer(error.config.value, token.token));
          return reissue, reissued;
        }
      }
    }
    result := Failed(error);
  }
}
