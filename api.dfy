/** The decision logic of the client's request pipeline
    (frontend/src/services/api.ts, ApiService.request): header merging, what a
    fetch result turns into, and the error values the client raises
    (frontend/src/services/error.ts). The stateful client is in module Client. */
module Api {
  import opened Wrappers
  import opened Browser

  /** ApiError(message, status, validationErrors?). */
  datatype ApiError = ApiError(message: string, status: int, validationErrors: Option<seq<FieldError>>)

  /** What a client call can fail with: an ApiError, or the TypeError raised
      when an authentication response has no JSON body to destructure. */
  datatype ClientError = ApiErr(error: ApiError) | TypeError

  const DefaultApiUrl: string := "http://localhost:8080/api"
  const RefreshEndpoint: string := "/auth/refresh"
  const UnexpectedErrorMessage: string := "An unexpected error occurred"
  const FallbackErrorMessage: string := "unexpected error"

  /** The error used when fetch rejects, or anything other than an ApiError
      escapes request. */
  const Unexpected: ApiError := ApiError(UnexpectedErrorMessage, 500, None)

  /** `VITE_API_URL || "http://localhost:8080/api"`: an unset or empty
      setting falls back to the local server. */
  function ApiUrl(env: Option<string>): (url: string)
    ensures env.Some? && env.value != "" ==> url == env.value
    ensures env.None? || env.value == "" ==> url == DefaultApiUrl
  {
    if env.Some? && env.value != "" then env.value else DefaultApiUrl
  }

  predicate IsRefreshRequest(endpoint: string) {
    endpoint == RefreshEndpoint
  }

  /** The JSON content type first, then the caller's headers, which win. */
  function MergeHeaders(headers: map<string, string>): (h: map<string, string>)
    ensures h.Keys == headers.Keys + {"Content-Type"}
    ensures forall k :: k in headers ==> h[k] == headers[k]
    ensures "Content-Type" !in headers ==> h["Content-Type"] == "application/json"
  {
    map["Content-Type" := "application/json"] + headers
  }

  /** The caller's headers with `Authorization: Bearer <token>` added or replaced. */
  function WithBearer(headers: map<string, string>, accessToken: string): (h: map<string, string>)
    ensures h.Keys == headers.Keys + {"Authorization"}
    ensures h["Authorization"] == "Bearer " + accessToken
    ensures forall k :: k in headers && k != "Authorization" ==> h[k] == headers[k]
  {
    headers["Authorization" := "Bearer " + accessToken]
  }

  /** Response.ok. */
  predicate IsOk(status: int) {
    200 <= status <= 299
  }

  /** The ApiError thrown for a non-ok response: the body's message when it
      has a non-empty one, the body's validation errors or an empty list. */
  function ErrorOf(status: int, body: Option<Body>): (e: ApiError)
    ensures e.status == status
    ensures body.Some? && body.value.message.Some? && body.value.message.value != "" ==>
              e.message == body.value.message.value
    ensures body.None? || body.value.message.None? || body.value.message.value == "" ==>
              e.message == FallbackErrorMessage
    ensures body.Some? && body.value.validationErrors.Some? ==> e.validationErrors == body.value.validationErrors
    ensures body.None? || body.value.validationErrors.None? ==> e.validationErrors == Some([])
  {
    var message :=
      if body.Some? && body.value.message.Some? && body.value.message.value != ""
      then body.value.message.value else FallbackErrorMessage;
    var errors := if body.Some? && body.value.validationErrors.Some? then body.value.validationErrors.value else [];
    ApiError(message, status, Some(errors))
  }

  /** What request does with one fetch result. */
  datatype Step = Return(body: Option<Body>) | TryRefresh | Fail(error: ApiError)

  /** A rejected fetch fails with the generic 500 error; 204 returns nothing;
      another ok status returns the parsed body; any other status fails with
      ErrorOf, except that a 401 on a retryable, non-refresh request made
      while tokens are held asks for a token refresh first. */
  function Decide(result: FetchResult, retry: bool, hasTokens: bool, endpoint: string): (s: Step)
    ensures result.NetworkError? ==> s == Fail(Unexpected)
    ensures result.Response? && result.status == 204 ==> s == Return(None)
    ensures result.Response? && result.status != 204 && IsOk(result.status) ==> s == Return(result.body)
    ensures result.Response? && !IsOk(result.status) ==>
              (s.TryRefresh? <==> result.status == 401 && retry && hasTokens && !IsRefreshRequest(endpoint))
    ensures result.Response? && !IsOk(result.status) && !s.TryRefresh? ==>
              s == Fail(ErrorOf(result.status, result.body))
  {
    match result
    case NetworkError => Fail(Unexpected)
    case Response(status, body) =>
      if status == 204 then Return(None)
      else if IsOk(status) then Return(body)
      else if status == 401 && retry && hasTokens && !IsRefreshRequest(endpoint) then TryRefresh
      else Fail(ErrorOf(status, body))
  }

  /** The outcome of a step that does not refresh. */
  function Settle(s: Step): Result<Option<Body>, ApiError>
    requires !s.TryRefresh?
  {
    match s
    case Return(body) => Ok(body)
    case Fail(e) => Err(e)
  }

  /** The outcome of a request that may not refresh (retry off). */
  function OneShot(result: FetchResult): (r: Result<Option<Body>, ApiError>)
    ensures r.Ok? <==> result.Response? && IsOk(result.status)
    ensures r.Ok? && result.status != 204 ==> r.value == result.body
    ensures result.NetworkError? ==> r == Err(Unexpected)
  {
    Settle(Decide(result, false, false, ""))
  }

  /** What request rethrows from a failed refresh: an ApiError as it is,
      anything else as the generic 500 error. */
  function ToApiError(e: ClientError): (a: ApiError)
    ensures e.ApiErr? ==> a == e.error
    ensures e.TypeError? ==> a == Unexpected
  {
    match e
    case ApiErr(error) => error
    case TypeError => Unexpected
  }

  /** Without retry, or on the refresh endpoint, the tokens and the endpoint
      do not matter: the outcome is the one-shot outcome. */
  lemma SettlesAsOneShot(result: FetchResult, retry: bool, hasTokens: bool, endpoint: string)
    requires !retry || IsRefreshRequest(endpoint)
    ensures !Decide(result, retry, hasTokens, endpoint).TryRefresh?
    ensures Settle(Decide(result, retry, hasTokens, endpoint)) == OneShot(result)
  {
  }

  /** A refresh is attempted only after a 401, and never when no tokens are held. */
  lemma RefreshOnlyAfterUnauthorized(result: FetchResult, retry: bool, hasTokens: bool, endpoint: string)
    requires Decide(result, retry, hasTokens, endpoint).TryRefresh?
    ensures result == Response(401, result.body) && retry && hasTokens
  {
  }

  /** Every failure of a response carries that response's status; other
      failures are the generic 500. */
  lemma FailureKeepsStatus(result: FetchResult, retry: bool, hasTokens: bool, endpoint: string)
    requires Decide(result, retry, hasTokens, endpoint).Fail?
    ensures result.Response? ==> Decide(result, retry, hasTokens, endpoint).error.status == result.status
    ensures result.NetworkError? ==> Decide(result, retry, hasTokens, endpoint).error.status == 500
  {
  }
}
