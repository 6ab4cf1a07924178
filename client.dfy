/** The API client and its authentication hook: ApiService
    (frontend/src/services/api.ts) and useApi (frontend/src/hooks/useApi.tsx).
    The two refer to each other (the service refreshes through the hook, the
    hook signs in and out through the service), so both classes live in this
    module. The browser's event loop is sequentialised: every call runs to
    completion before its caller resumes. */
module Client {
  import opened Wrappers
  import opened Browser
  import opened Api
  import Jwt
  import AuthContext

  /** The two localStorage keys the client owns. */
  const TokenKeys: set<string> := {AuthContext.AccessTokenKey, AuthContext.RefreshTokenKey}

  const LoginEndpoint: string := "/auth/login"
  const RegisterEndpoint: string := "/auth/register"
  const LogoutEndpoint: string := "/auth/logout"

  /** The error of a token-guarded call made while signed out. */
  const NoTokens: ApiError := ApiError("No tokens", 401, None)

  /** The token pair of an authentication response. A missing field reads as
      the empty string. */
  function TokensOf(body: Body): (t: AuthContext.TokenData)
    ensures body.accessToken.Some? ==> t.accessToken == body.accessToken.value
    ensures body.refreshToken.Some? ==> t.refreshToken == body.refreshToken.value
  {
    AuthContext.TokenData(body.refreshToken.GetOr(""), body.accessToken.GetOr(""))
  }

  function Last<T>(s: seq<T>): T
    requires |s| > 0
  {
    s[|s| - 1]
  }

  /** The request a POST of `payload` to `endpoint` sends. */
  function Post(apiUrl: string, endpoint: string, payload: Payload): FetchRequest {
    FetchRequest(apiUrl + endpoint, RequestInit("POST", MergeHeaders(map[]), payload))
  }

  class ApiService {
    const apiUrl: string
    const auth: AuthContext.AuthProvider
    const browser: Browser
    /** The refresher passed in by useApi. */
    var hook: UseApi?
    /** `_refreshPromise`: the refresh in flight, if any, by its number. */
    var refreshPromise: Option<nat>
    /** The number of raw refreshes started so far, which also numbers them,
        and the number of refreshTokens calls that joined one in flight. */
    var rawCalls: nat
    var joinedCalls: nat

    predicate Ready()
      reads this, hook, auth, browser
    {
      hook != null && hook.api == this && hook.auth == auth && hook.browser == browser
      && browser.Valid() && auth.AgreesWith(browser.storage)
    }

    constructor (apiUrl: string, auth: AuthContext.AuthProvider, browser: Browser)
      ensures this.apiUrl == apiUrl && this.auth == auth && this.browser == browser
      ensures hook == null && refreshPromise.None? && rawCalls == 0 && joinedCalls == 0
    {
      this.apiUrl := apiUrl;
      this.auth := auth;
      this.browser := browser;
      hook := null;
      refreshPromise := None;
      rawCalls := 0;
      joinedCalls := 0;
    }

    /** A call of refreshTokens: with no promise in flight it starts the raw
        refresher and publishes the new promise; otherwise it joins the
        promise in flight. Either way it returns the promise it awaits. */
    method Enter() returns (promise: nat, started: bool)
      modifies this`refreshPromise, this`rawCalls, this`joinedCalls
      ensures started <==> old(refreshPromise).None?
      ensures refreshPromise == Some(promise)
      ensures started ==> promise == old(rawCalls) && rawCalls == old(rawCalls) + 1 && joinedCalls == old(joinedCalls)
      ensures !started ==>
                promise == old(refreshPromise).value && rawCalls == old(rawCalls) && joinedCalls == old(joinedCalls) + 1
    {
      started := refreshPromise.None?;
      if started {
        promise := rawCalls;
        refreshPromise := Some(promise);
        rawCalls := rawCalls + 1;
      } else {
        promise := refreshPromise.value;
        joinedCalls := joinedCalls + 1;
      }
    }

    /** refreshTokens, called by `callers` requests that all reach it before
        the refresh settles: the first starts one raw refresh, the others join
        its promise (`awaited` lists the promise each caller awaits), and all
        of them get its outcome. The slot is cleared once the promise settles,
        whatever the outcome. A failed refresh signs the user out; that
        logout's request is answered after the slot has been cleared. */
    method RefreshTokens(callers: nat)
      returns (shared: Result<Option<AuthContext.TokenData>, ClientError>, ghost awaited: seq<nat>)
      requires Ready() && refreshPromise.None? && callers >= 1
      modifies this`refreshPromise, this`rawCalls, this`joinedCalls
      modifies auth`user, auth`tokenData, auth`tokenRef
      modifies browser`storage, browser`pending, browser`sent, browser`received
      decreases |browser.pending|, 4
      ensures Ready() && refreshPromise.None?
      ensures |awaited| == callers && forall k :: 0 <= k < |awaited| ==> awaited[k] == old(rawCalls)
      ensures |browser.pending| <= old(|browser.pending|)
      ensures browser.storage - TokenKeys == old(browser.storage) - TokenKeys
      ensures old(auth.tokenRef).None? ==> shared == Ok(None) && browser.sent == old(browser.sent)
      ensures shared.Ok? ==> auth.tokenRef == shared.value
      ensures Extends(old(browser.sent), browser.sent) && Extends(old(browser.received), browser.received)
      ensures shared.Ok? ==> rawCalls == old(rawCalls) + 1 && joinedCalls == old(joinedCalls) + callers - 1
      ensures old(auth.tokenRef).Some? ==>
                |browser.sent| > |old(browser.sent)|
                && browser.sent[|old(browser.sent)|]
                   == Post(apiUrl, RefreshEndpoint, RefreshTokenBody(old(auth.tokenRef).value.refreshToken))
      ensures shared.Ok? ==>
                browser.sent == old(browser.sent)
                                + (if old(auth.tokenRef).Some?
                                   then [Post(apiUrl, RefreshEndpoint, RefreshTokenBody(old(auth.tokenRef).value.refreshToken))]
                                   else [])
      ensures shared.Err? ==> auth.tokenRef.None? && auth.user.None? && browser.storage == old(browser.storage) - TokenKeys
    {
      var first, started := Enter();
      awaited := [first];
      var entered := 1;
      while entered < callers
        modifies this`refreshPromise, this`rawCalls, this`joinedCalls
        invariant entered == |awaited| && 1 <= entered <= callers
        invariant refreshPromise == Some(first) && first == old(rawCalls)
        invariant forall k :: 0 <= k < |awaited| ==> awaited[k] == first
        invariant rawCalls == old(rawCalls) + 1 && joinedCalls == old(joinedCalls) + |awaited| - 1
      {
        var promise, joined := Enter();
        awaited := awaited + [promise];
        entered := entered + 1;
      }
      var signOut;
      shared, signOut := hook.Refresh();
      refreshPromise := None;
      if signOut {
        hook.Logout();
      }
    }

    /** request: one fetch of `apiUrl + endpoint` with the JSON content type
        merged under the caller's headers, its result classified by Decide; on
        a refresh step the shared refresh runs, and, when tokens are held
        afterwards, the request is sent once more, without retry, carrying the
        new access token. `refreshed` records the refresh outcome, if any. */
    method Request(endpoint: string, init: RequestInit, retry: bool)
      returns (r: Result<Option<Body>, ApiError>, ghost refreshed: Option<Result<Option<AuthContext.TokenData>, ClientError>>)
      requires Ready()
      requires refreshPromise.Some? ==> !retry || IsRefreshRequest(endpoint)
      modifies this`refreshPromise, this`rawCalls, this`joinedCalls
      modifies auth`user, auth`tokenData, auth`tokenRef
      modifies browser`storage, browser`pending, browser`sent, browser`received
      decreases |browser.pending|, 0
      ensures Ready() && refreshPromise == old(refreshPromise)
      ensures |browser.pending| <= old(|browser.pending|)
      ensures browser.storage - TokenKeys == old(browser.storage) - TokenKeys
      ensures |old(browser.sent)| < |browser.sent| && |old(browser.received)| < |browser.received|
      ensures Extends(old(browser.sent), browser.sent) && Extends(old(browser.received), browser.received)
      ensures browser.sent[|old(browser.sent)|]
              == FetchRequest(apiUrl + endpoint, RequestInit(init.verb, MergeHeaders(init.headers), init.body))
      ensures var step := Decide(browser.received[|old(browser.received)|], retry, old(auth.tokenRef).Some?, endpoint);
              (refreshed.Some? <==> step.TryRefresh?)
              && (!step.TryRefresh? ==>
                    r == Settle(step)
                    && |browser.sent| == |old(browser.sent)| + 1
                    && rawCalls == old(rawCalls) && joinedCalls == old(joinedCalls)
                    && browser.storage == old(browser.storage)
                    && auth.tokenRef == old(auth.tokenRef) && auth.user == old(auth.user))
      ensures refreshed.Some? && refreshed.value.Err? ==> r == Err(ToApiError(refreshed.value.error))
      ensures refreshed.Some? && refreshed.value.Ok? && auth.tokenRef.None? ==>
                var first := browser.received[|old(browser.received)|];
                r == Err(ErrorOf(first.status, first.body))
      ensures refreshed.Some? && refreshed.value.Ok? && auth.tokenRef.Some? ==>
                Last(browser.sent)
                == FetchRequest(apiUrl + endpoint,
                                RequestInit(init.verb, MergeHeaders(WithBearer(init.headers, auth.tokenRef.value.accessToken)), init.body))
                && r == OneShot(Last(browser.received))
      ensures refreshed.Some? && refreshed.value.Ok? && auth.tokenRef.Some? ==> |browser.sent| == |old(browser.sent)| + 3
      ensures r.Ok? ==> r == OneShot(Last(browser.received))
    {
      var request := FetchRequest(apiUrl + endpoint, RequestInit(init.verb, MergeHeaders(init.headers), init.body));
      var result := browser.Fetch(request);
      var tokens := auth.GetToken();
      var step := Decide(result, retry, tokens.Some?, endpoint);
      if !step.TryRefresh? {
        SettlesAsOneShot(result, false, false, "");
        r, refreshed := Settle(step), None;
        return;
      }
      ghost var outcome;
      r, outcome := RefreshAndRetry(endpoint, init, result);
      refreshed := Some(outcome);
    }

    /** The rest of request after a 401 that asks for a refresh: the shared
        refresh runs; its failure is rethrown as an ApiError; without tokens
        afterwards the 401 is thrown; otherwise the request is sent once more,
        without retry, carrying the new access token. */
    method RefreshAndRetry(endpoint: string, init: RequestInit, first: FetchResult)
      returns (r: Result<Option<Body>, ApiError>, ghost refreshed: Result<Option<AuthContext.TokenData>, ClientError>)
      requires Ready() && refreshPromise.None? && first.Response?
      modifies this`refreshPromise, this`rawCalls, this`joinedCalls
      modifies auth`user, auth`tokenData, auth`tokenRef
      modifies browser`storage, browser`pending, browser`sent, browser`received
      decreases |browser.pending|, 5
      ensures Ready() && refreshPromise.None?
      ensures |browser.pending| <= old(|browser.pending|)
      ensures browser.storage - TokenKeys == old(browser.storage) - TokenKeys
      ensures Extends(old(browser.sent), browser.sent) && Extends(old(browser.received), browser.received)
      ensures refreshed.Err? ==> r == Err(ToApiError(refreshed.error))
      ensures refreshed.Ok? && auth.tokenRef.None? ==> r == Err(ErrorOf(first.status, first.body))
      ensures refreshed.Ok? && auth.tokenRef.Some? ==>
                |browser.sent| > 0 && |browser.received| > 0
                && Last(browser.sent)
                   == FetchRequest(apiUrl + endpoint,
                                   RequestInit(init.verb, MergeHeaders(WithBearer(init.headers, auth.tokenRef.value.accessToken)), init.body))
                && r == OneShot(Last(browser.received))
      ensures refreshed.Ok? && auth.tokenRef.Some? ==> |browser.sent| == |old(browser.sent)| + 2
      ensures r.Ok? ==> |browser.received| > 0 && r == OneShot(Last(browser.received))
    {
      ghost var awaited;
      var shared;
      shared, awaited := RefreshTokens(1);
      refreshed := shared;
      if shared.Err? {
        r := Err(ToApiError(shared.error));
        return;
      }
      var newTokens := auth.GetToken();
      if newTokens.None? {
        r := Err(ErrorOf(first.status, first.body));
        return;
      }
      var retried := RequestInit(init.verb, WithBearer(init.headers, newTokens.value.accessToken), init.body);
      ghost var again;
      r, again := Request(endpoint, retried, false);
      SettlesAsOneShot(Last(browser.received), false, newTokens.Some?, endpoint);
    }

    /** login: a POST of the credentials to /auth/login. */
    method Login(credentials: string) returns (r: Result<Option<Body>, ApiError>)
      requires Ready() && refreshPromise.None?
      modifies this`refreshPromise, this`rawCalls, this`joinedCalls
      modifies auth`user, auth`tokenData, auth`tokenRef
      modifies browser`storage, browser`pending, browser`sent, browser`received
      ensures Ready() && refreshPromise.None?
      ensures |old(browser.sent)| < |browser.sent|
      ensures browser.sent[|old(browser.sent)|] == Post(apiUrl, LoginEndpoint, JsonText(credentials))
      ensures r.Ok? ==> r == OneShot(Last(browser.received))
    {
      ghost var refreshed;
      r, refreshed := Request(LoginEndpoint, RequestInit("POST", map[], JsonText(credentials)), true);
    }

    /** register: a POST of the new account to /auth/register. */
    method Register(credentials: string) returns (r: Result<Option<Body>, ApiError>)
      requires Ready() && refreshPromise.None?
      modifies this`refreshPromise, this`rawCalls, this`joinedCalls
      modifies auth`user, auth`tokenData, auth`tokenRef
      modifies browser`storage, browser`pending, browser`sent, browser`received
      ensures Ready() && refreshPromise.None?
      ensures |old(browser.sent)| < |browser.sent|
      ensures browser.sent[|old(browser.sent)|] == Post(apiUrl, RegisterEndpoint, JsonText(credentials))
      ensures r.Ok? ==> r == OneShot(Last(browser.received))
    {
      ghost var refreshed;
      r, refreshed := Request(RegisterEndpoint, RequestInit("POST", map[], JsonText(credentials)), true);
    }

    /** refreshToken: a POST of the refresh token to /auth/refresh, which is
        never retried and so sends exactly one request and touches nothing else. */
    method RefreshToken(refreshToken: string) returns (r: Result<Option<Body>, ApiError>)
      requires Ready()
      modifies this`refreshPromise, this`rawCalls, this`joinedCalls
      modifies auth`user, auth`tokenData, auth`tokenRef
      modifies browser`storage, browser`pending, browser`sent, browser`received
      decreases |browser.pending|, 1
      ensures Ready() && refreshPromise == old(refreshPromise)
      ensures |browser.pending| <= old(|browser.pending|)
      ensures browser.sent == old(browser.sent) + [Post(apiUrl, RefreshEndpoint, RefreshTokenBody(refreshToken))]
      ensures |browser.received| == |old(browser.received)| + 1
      ensures Extends(old(browser.received), browser.received)
      ensures r == OneShot(Last(browser.received))
      ensures rawCalls == old(rawCalls) && joinedCalls == old(joinedCalls)
      ensures browser.storage == old(browser.storage)
      ensures auth.tokenRef == old(auth.tokenRef) && auth.user == old(auth.user)
    {
      ghost var refreshed;
      r, refreshed := Request(RefreshEndpoint, RequestInit("POST", map[], RefreshTokenBody(refreshToken)), true);
      SettlesAsOneShot(Last(browser.received), true, old(auth.tokenRef).Some?, RefreshEndpoint);
      assert browser.sent == browser.sent[..|old(browser.sent)|] + [browser.sent[|old(browser.sent)|]];
    }

    /** logout: nothing when no refresh token is held; otherwise a POST of the
        refresh token to /auth/logout, whose failure is reported. */
    method Logout() returns (failure: Option<ApiError>)
      requires Ready() && refreshPromise.None?
      modifies this`refreshPromise, this`rawCalls, this`joinedCalls
      modifies auth`user, auth`tokenData, auth`tokenRef
      modifies browser`storage, browser`pending, browser`sent, browser`received
      decreases |browser.pending|, 1
      ensures Ready() && refreshPromise.None?
      ensures Extends(old(browser.sent), browser.sent) && Extends(old(browser.received), browser.received)
      ensures |browser.pending| <= old(|browser.pending|)
      ensures browser.storage - TokenKeys == old(browser.storage) - TokenKeys
      ensures old(auth.tokenRef).None? || old(auth.tokenRef).value.refreshToken == "" ==>
                failure.None? && browser.sent == old(browser.sent)
                && browser.storage == old(browser.storage) && auth.tokenRef == old(auth.tokenRef)
      ensures old(auth.tokenRef).Some? && old(auth.tokenRef).value.refreshToken != "" ==>
                |old(browser.sent)| < |browser.sent|
                && browser.sent[|old(browser.sent)|]
                   == Post(apiUrl, LogoutEndpoint, RefreshTokenBody(old(auth.tokenRef).value.refreshToken))
    {
      var tokens := auth.GetToken();
      if tokens.None? || tokens.value.refreshToken == "" {
        return None;
      }
      var r;
      ghost var refreshed;
      r, refreshed := Request(LogoutEndpoint, RequestInit("POST", map[], RefreshTokenBody(tokens.value.refreshToken)), true);
      failure := if r.Err? then Some(r.error) else None;
    }

    /** The token-guarded endpoints (getUserDetails and the others written the
        same way): signed out, they fail with "No tokens" and send nothing;
        signed in, they send the access token as a bearer token. */
    method AuthorizedRequest(endpoint: string, verb: string, payload: Payload) returns (r: Result<Option<Body>, ApiError>)
      requires Ready() && refreshPromise.None?
      modifies this`refreshPromise, this`rawCalls, this`joinedCalls
      modifies auth`user, auth`tokenData, auth`tokenRef
      modifies browser`storage, browser`pending, browser`sent, browser`received
      ensures Ready() && refreshPromise.None?
      ensures old(auth.tokenRef).None? ==>
                r == Err(NoTokens) && browser.sent == old(browser.sent) && browser.storage == old(browser.storage)
      ensures old(auth.tokenRef).Some? ==>
                |old(browser.sent)| < |browser.sent|
                && browser.sent[|old(browser.sent)|]
                   == FetchRequest(apiUrl + endpoint,
                                   RequestInit(verb, MergeHeaders(WithBearer(map[], old(auth.tokenRef).value.accessToken)), payload))
      ensures r.Ok? ==> r == OneShot(Last(browser.received))
    {
      var tokens := auth.GetToken();
      if tokens.None? {
        return Err(NoTokens);
      }
      ghost var refreshed;
      r, refreshed := Request(endpoint, RequestInit(verb, WithBearer(map[], tokens.value.accessToken), payload), true);
    }
  }

  /** What signing in makes of the service's answer: a body is adopted, a
      missing body cannot be destructured, an error is passed on. */
  function SignInOutcome(response: Result<Option<Body>, ApiError>): Result<(), ClientError> {
    match response
    case Ok(Some(_)) => Ok(())
    case Ok(None) => Err(TypeError)
    case Err(e) => Err(ApiErr(e))
  }

  class UseApi {
    const auth: AuthContext.AuthProvider
    const browser: Browser
    const api: ApiService

    predicate Ready()
      reads this, api, api.hook, auth, browser
    {
      api.hook == this && api.auth == auth && api.browser == browser && api.Ready()
    }

    /** useApi: the service is built on the configured base URL and given this
        hook as its refresher. */
    constructor (auth: AuthContext.AuthProvider, browser: Browser, env: Option<string>)
      requires browser.Valid() && auth.AgreesWith(browser.storage)
      ensures Ready() && fresh(api) && api.apiUrl == ApiUrl(env)
      ensures api.refreshPromise.None? && api.rawCalls == 0 && api.joinedCalls == 0
    {
      this.auth := auth;
      this.browser := browser;
      api := new ApiService(ApiUrl(env), auth, browser);
      new;
      api.hook := this;
    }

    /** authHelper: the tokens of an authentication response become the
        session, in React state, in the ref and in local storage. */
    method AuthHelper(body: Body) returns (tokens: AuthContext.TokenData)
      requires Ready()
      modifies auth`user, auth`tokenData, auth`tokenRef, browser`storage
      ensures Ready()
      ensures tokens == TokensOf(body)
      ensures auth.tokenRef == Some(tokens) && auth.tokenData == Some(tokens)
      ensures auth.user == Some(AuthContext.UserFromToken(auth.decode, tokens.accessToken))
      ensures browser.storage
              == old(browser.storage)[AuthContext.AccessTokenKey := tokens.accessToken][AuthContext.RefreshTokenKey := tokens.refreshToken]
    {
      tokens := TokensOf(body);
      auth.SetUser(Some(AuthContext.UserFromToken(auth.decode, tokens.accessToken)));
      auth.SetTokenData(Some(tokens));
      auth.SetToken(Some(tokens));
      browser.SetItem(AuthContext.AccessTokenKey, tokens.accessToken);
      browser.SetItem(AuthContext.RefreshTokenKey, tokens.refreshToken);
    }

    /** login: sign in with the service's answer. */
    method Login(credentials: string) returns (r: Result<(), ClientError>, ghost response: Result<Option<Body>, ApiError>)
      requires Ready() && api.refreshPromise.None?
      modifies api`refreshPromise, api`rawCalls, api`joinedCalls
      modifies auth`user, auth`tokenData, auth`tokenRef
      modifies browser`storage, browser`pending, browser`sent, browser`received
      ensures Ready() && api.refreshPromise.None?
      ensures |old(browser.sent)| < |browser.sent|
      ensures browser.sent[|old(browser.sent)|] == Post(api.apiUrl, LoginEndpoint, JsonText(credentials))
      ensures response.Ok? ==> response == OneShot(Last(browser.received))
      ensures r == SignInOutcome(response)
      ensures r.Ok? ==> auth.tokenRef == Some(TokensOf(response.value.value))
    {
      var answer := api.Login(credentials);
      response := answer;
      r := Adopt(answer);
    }

    /** register: sign in with the service's answer to the new account. */
    method Register(credentials: string) returns (r: Result<(), ClientError>, ghost response: Result<Option<Body>, ApiError>)
      requires Ready() && api.refreshPromise.None?
      modifies api`refreshPromise, api`rawCalls, api`joinedCalls
      modifies auth`user, auth`tokenData, auth`tokenRef
      modifies browser`storage, browser`pending, browser`sent, browser`received
      ensures Ready() && api.refreshPromise.None?
      ensures |old(browser.sent)| < |browser.sent|
      ensures browser.sent[|old(browser.sent)|] == Post(api.apiUrl, RegisterEndpoint, JsonText(credentials))
      ensures response.Ok? ==> response == OneShot(Last(browser.received))
      ensures r == SignInOutcome(response)
      ensures r.Ok? ==> auth.tokenRef == Some(TokensOf(response.value.value))
    {
      var answer := api.Register(credentials);
      response := answer;
      r := Adopt(answer);
    }

    /** The continuation shared by login and register. */
    method Adopt(response: Result<Option<Body>, ApiError>) returns (r: Result<(), ClientError>)
      requires Ready()
      modifies auth`user, auth`tokenData, auth`tokenRef, browser`storage
      ensures Ready() && r == SignInOutcome(response)
      ensures r.Ok? ==> auth.tokenRef == Some(TokensOf(response.value.value))
      ensures !r.Ok? ==> auth.tokenRef == old(auth.tokenRef) && browser.storage == old(browser.storage)
    {
      match response {
        case Ok(Some(body)) =>
          var tokens := AuthHelper(body);
          r := Ok(());
        case Ok(None) =>
          r := Err(TypeError);
        case Err(e) =>
          r := Err(ApiErr(e));
      }
    }

    /** refresh, up to its un-awaited logout: nothing to do without tokens;
        otherwise the refresh token is exchanged and the answer adopted. A 404
        (the token may have been rotated by another tab) keeps the session
        while its access token is unexpired. Every other failure is reported
        with `signOut`, and the caller signs the user out. */
    method Refresh() returns (r: Result<Option<AuthContext.TokenData>, ClientError>, signOut: bool)
      requires Ready()
      modifies api`refreshPromise, api`rawCalls, api`joinedCalls
      modifies auth`user, auth`tokenData, auth`tokenRef
      modifies browser`storage, browser`pending, browser`sent, browser`received
      decreases |browser.pending|, 3
      ensures Ready() && api.refreshPromise == old(api.refreshPromise)
      ensures Extends(old(browser.sent), browser.sent) && Extends(old(browser.received), browser.received)
      ensures |browser.pending| <= old(|browser.pending|)
      ensures api.rawCalls == old(api.rawCalls) && api.joinedCalls == old(api.joinedCalls)
      ensures old(auth.tokenRef).None? ==>
                r == Ok(None) && !signOut && browser.sent == old(browser.sent)
                && browser.storage == old(browser.storage) && auth.tokenRef == old(auth.tokenRef)
      ensures old(auth.tokenRef).Some? ==>
                browser.sent == old(browser.sent) + [Post(api.apiUrl, RefreshEndpoint, RefreshTokenBody(old(auth.tokenRef).value.refreshToken))]
                && |browser.received| == |old(browser.received)| + 1
      ensures old(auth.tokenRef).Some? ==>
                var answer := OneShot(Last(browser.received));
                var held := old(auth.tokenRef).value;
                (answer.Ok? && answer.value.Some? ==>
                   r == Ok(Some(TokensOf(answer.value.value))) && !signOut
                   && auth.tokenRef == r.value
                   && browser.storage == old(browser.storage)[AuthContext.AccessTokenKey := r.value.value.accessToken]
                                                             [AuthContext.RefreshTokenKey := r.value.value.refreshToken])
                && (answer.Ok? && answer.value.None? ==> r == Err(TypeError) && signOut)
                && (answer.Err? && answer.error.status == 404 && !Jwt.IsTokenExpired(auth.decode, held.accessToken, browser.nowMs) ==>
                      r == Ok(Some(held)) && !signOut)
                && (answer.Err? && !(answer.error.status == 404 && !Jwt.IsTokenExpired(auth.decode, held.accessToken, browser.nowMs)) ==>
                      r == Err(ApiErr(answer.error)) && signOut)
                && (!answer.Ok? || answer.value.None? ==>
                      auth.tokenRef == old(auth.tokenRef) && browser.storage == old(browser.storage))
    {
      var token := auth.GetToken();
      if token.None? {
        return Ok(None), false;
      }
      var answer := api.RefreshToken(token.value.refreshToken);
      match answer {
        case Ok(Some(body)) =>
          var tokens := AuthHelper(body);
          r, signOut := Ok(Some(tokens)), false;
        case Ok(None) =>
          r, signOut := Err(TypeError), true;
        case Err(e) =>
          var current := auth.GetToken();
          if e.status == 404 && current.Some? && !Jwt.IsTokenExpired(auth.decode, current.value.accessToken, browser.nowMs) {
            r, signOut := Ok(current), false;
          } else {
            r, signOut := Err(ApiErr(e)), true;
          }
      }
    }

    /** logout: the service's logout is attempted and its failure ignored;
        then the session is cleared everywhere. */
    method Logout()
      requires Ready() && api.refreshPromise.None?
      modifies api`refreshPromise, api`rawCalls, api`joinedCalls
      modifies auth`user, auth`tokenData, auth`tokenRef
      modifies browser`storage, browser`pending, browser`sent, browser`received
      decreases |browser.pending|, 2
      ensures Ready() && api.refreshPromise.None?
      ensures Extends(old(browser.sent), browser.sent) && Extends(old(browser.received), browser.received)
      ensures |browser.pending| <= old(|browser.pending|)
      ensures auth.user.None? && auth.tokenData.None? && auth.tokenRef.None?
      ensures browser.storage == old(browser.storage) - TokenKeys
      ensures old(auth.tokenRef).None? || old(auth.tokenRef).value.refreshToken == "" ==> browser.sent == old(browser.sent)
      ensures old(auth.tokenRef).Some? && old(auth.tokenRef).value.refreshToken != "" ==>
                |old(browser.sent)| < |browser.sent|
                && browser.sent[|old(browser.sent)|]
                   == Post(api.apiUrl, LogoutEndpoint, RefreshTokenBody(old(auth.tokenRef).value.refreshToken))
    {
      var ignored := api.Logout();
      auth.SetUser(None);
      auth.SetTokenData(None);
      auth.SetToken(None);
      browser.RemoveItem(AuthContext.AccessTokenKey);
      browser.RemoveItem(AuthContext.RefreshTokenKey);
      assert browser.storage == old(browser.storage) - TokenKeys;
    }
  }
}
