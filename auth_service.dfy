/** Login, registration, token refresh and logout against the refresh-token
    table (backend/.../service/AuthService.java). The table maps a refresh
    token's text to its row. Token creation is the token builder: a function of
    the subject, the type, the roles and a nonce that stands for the random token
    id, so that every created token is a new value. The clock is a parameter. */
module AuthService {
  import opened Wrappers
  import opened Failures
  import JwtToken
  import TokenFilter
  import UserService

  type User = UserService.User

  /** A refresh-token row: its user, its expiry instant and its blocked flag. */
  datatype Entry = Entry(userId: int, expiryMs: int, blocked: bool)

  type Table = map<string, Entry>

  datatype AuthResponse = AuthResponse(success: bool, message: string, accessToken: string, refreshToken: string)

  type TokenFactory = (string, JwtToken.TokenType, seq<string>, nat) -> string

  const DefaultRefreshTokenExpiryMs: int := 604800000
  /** The lifetime left to a refresh token that has just been used. */
  const GraceMs: int := 120000
  const InvalidRefresh: string := "Invalid or expired refresh token"

  /** saveRefreshToken: a new row for the user, expiring `expiryMs` from now. */
  function SaveRefreshToken(table: Table, token: string, userId: int, nowMs: int, expiryMs: int): (t: Table)
    ensures token in t && t[token] == Entry(userId, nowMs + expiryMs, false)
    ensures forall k :: k != token ==> (k in t <==> k in table) && (k in t ==> t[k] == table[k])
  {
    table[token := Entry(userId, nowMs + expiryMs, false)]
  }

  /** The checks of refreshToken, in their order: the token must parse and be a
      valid refresh token (401), have a row (404), not be blocked (401) and not
      be past its stored expiry (401). The row is returned when all pass. */
  function RefreshCheck(table: Table, token: string, parsed: Option<JwtToken.JwtToken>, nowMs: int)
    : (r: Result<Entry, Failure>)
    ensures (parsed.None? || !JwtToken.IsValid(parsed.value, JwtToken.Refresh, nowMs)) ==>
              r == Err(ApiException(InvalidRefresh, Unauthorized))
    ensures parsed.Some? && JwtToken.IsValid(parsed.value, JwtToken.Refresh, nowMs) && token !in table ==>
              r == Err(ApiException("Refresh token not found", NotFound))
    ensures parsed.Some? && JwtToken.IsValid(parsed.value, JwtToken.Refresh, nowMs) && token in table
            && table[token].blocked ==>
              r == Err(ApiException("Refresh token is blocked", Unauthorized))
    ensures parsed.Some? && JwtToken.IsValid(parsed.value, JwtToken.Refresh, nowMs) && token in table
            && !table[token].blocked && table[token].expiryMs < nowMs ==>
              r == Err(ApiException("Refresh token expired", Unauthorized))
    ensures r.Ok? <==> parsed.Some? && JwtToken.IsValid(parsed.value, JwtToken.Refresh, nowMs) && token in table
                       && !table[token].blocked && nowMs <= table[token].expiryMs
    ensures r.Ok? ==> r.value == table[token]
  {
    if parsed.None? || !JwtToken.IsValid(parsed.value, JwtToken.Refresh, nowMs) then
      Err(ApiException(InvalidRefresh, Unauthorized))
    else if token !in table then Err(ApiException("Refresh token not found", NotFound))
    else if table[token].blocked then Err(ApiException("Refresh token is blocked", Unauthorized))
    else if table[token].expiryMs < nowMs then Err(ApiException("Refresh token expired", Unauthorized))
    else Ok(table[token])
  }

  /** The table after a successful refresh: a row for the new token, and the old
      token's expiry cut to two minutes from now. */
  function Rotate(table: Table, oldToken: string, newToken: string, userId: int, nowMs: int, expiryMs: int): Table
    requires oldToken in table
  {
    var saved := SaveRefreshToken(table, newToken, userId, nowMs, expiryMs);
    saved[oldToken := saved[oldToken].(expiryMs := nowMs + GraceMs)]
  }

  /** A used refresh token keeps working for two minutes and then is refused as
      expired, while the token that replaced it works for its full lifetime. */
  lemma GraceWindow(table: Table, oldToken: string, newToken: string, userId: int, nowMs: int, expiryMs: int,
                    parsed: Option<JwtToken.JwtToken>, laterMs: int)
    requires oldToken in table && !table[oldToken].blocked && oldToken != newToken
    requires parsed.Some? && JwtToken.IsValid(parsed.value, JwtToken.Refresh, laterMs)
    ensures var t := Rotate(table, oldToken, newToken, userId, nowMs, expiryMs);
            (RefreshCheck(t, oldToken, parsed, laterMs).Ok? <==> laterMs <= nowMs + GraceMs)
            && (laterMs > nowMs + GraceMs ==>
                  RefreshCheck(t, oldToken, parsed, laterMs) == Err(ApiException("Refresh token expired", Unauthorized)))
            && (RefreshCheck(t, newToken, parsed, laterMs).Ok? <==> laterMs <= nowMs + expiryMs)
  {
  }

  /** The grace window is not a final deadline: reusing the old token inside
      its window passes the checks and rotates again, which moves the old
      token's expiry to two minutes after that reuse. */
  lemma ReuseRestartsGrace(table: Table, oldToken: string, newToken: string, newerToken: string, userId: int,
                           nowMs: int, expiryMs: int, parsed: Option<JwtToken.JwtToken>, reuseMs: int, laterMs: int)
    requires oldToken in table && !table[oldToken].blocked && oldToken != newToken && oldToken != newerToken
    requires nowMs <= reuseMs <= nowMs + GraceMs
    requires parsed.Some? && JwtToken.IsValid(parsed.value, JwtToken.Refresh, reuseMs)
    requires JwtToken.IsValid(parsed.value, JwtToken.Refresh, laterMs)
    ensures var t := Rotate(table, oldToken, newToken, userId, nowMs, expiryMs);
            RefreshCheck(t, oldToken, parsed, reuseMs).Ok?
            && var t2 := Rotate(t, oldToken, newerToken, userId, reuseMs, expiryMs);
               (RefreshCheck(t2, oldToken, parsed, laterMs).Ok? <==> laterMs <= reuseMs + GraceMs)
  {
  }

  /** After logout deleted its row, a refresh token is not found. */
  lemma LoggedOutTokenIsNotFound(table: Table, token: string, parsed: Option<JwtToken.JwtToken>, nowMs: int)
    requires parsed.Some? && JwtToken.IsValid(parsed.value, JwtToken.Refresh, nowMs)
    ensures RefreshCheck(table - {token}, token, parsed, nowMs) == Err(ApiException("Refresh token not found", NotFound))
  {
  }

  /** An access token is refused at the first check, whatever the table says. */
  lemma AccessTokenCannotRefresh(table: Table, token: string, parsed: Option<JwtToken.JwtToken>, nowMs: int)
    requires parsed.Some? && parsed.value.tokenType == JwtToken.Access
    ensures RefreshCheck(table, token, parsed, nowMs) == Err(ApiException(InvalidRefresh, Unauthorized))
  {
  }

  /** The roles of the user with this id (its row exists in a valid service). */
  function RolesOf(users: seq<User>, userId: int): seq<string> {
    match UserService.IndexOf(users, UserService.Id(userId))
    case None => []
    case Some(i) => users[i].roles
  }

  /** Every row of the table belongs to a user. */
  predicate OwnersKnown(users: seq<User>, table: Table) {
    forall k :: k in table ==> UserService.IndexOf(users, UserService.Id(table[k].userId)).Some?
  }

  lemma RotateKeepsOwners(users: seq<User>, table: Table, oldToken: string, newToken: string, nowMs: int, expiryMs: int)
    requires OwnersKnown(users, table) && oldToken in table
    ensures OwnersKnown(users, Rotate(table, oldToken, newToken, table[oldToken].userId, nowMs, expiryMs))
  {
  }

  /** A new user row keeps every existing owner findable, and is findable itself. */
  lemma AppendKeepsOwners(users: seq<User>, user: User, table: Table)
    requires OwnersKnown(users, table)
    ensures OwnersKnown(users + [user], table)
    ensures UserService.IndexOf(users + [user], UserService.Id(user.id)).Some?
  {
    var all := users + [user];
    forall k | k in table
      ensures UserService.IndexOf(all, UserService.Id(table[k].userId)).Some?
    {
      var j := UserService.IndexOf(users, UserService.Id(table[k].userId)).value;
      assert all[j] == users[j];
    }
    assert all[|users|] == user;
  }

  /** A row with a new id, username and email keeps the user table valid. */
  lemma AppendKeepsUsersValid(users: seq<User>, user: User)
    requires UserService.UsersValid(users)
    requires forall i :: 0 <= i < |users| ==> users[i].id < user.id
    requires !UserService.UsernameTaken(users, user.username, None)
    requires UserService.IndexOf(users, UserService.Email(user.email)).None?
    ensures UserService.UsersValid(users + [user])
  {
  }

  class AuthService {
    var users: seq<User>
    var refreshTokens: Table
    var nextUserId: int
    /** The random part of the next token the builder creates. */
    var nonce: nat
    /** Whether the USER role exists in the role table. */
    const userRoleExists: bool
    const refreshTokenExpiryMs: int
    const createToken: TokenFactory
    const parseToken: string -> Option<JwtToken.JwtToken>
    const encode: string -> string
    const matches: (string, string) -> bool

    /** Users are unique, new ids are above the existing ones, and every row of
        the token table belongs to a user. */
    predicate Valid()
      reads this
    {
      UserService.UsersValid(users)
      && (forall i :: 0 <= i < |users| ==> users[i].id < nextUserId)
      && OwnersKnown(users, refreshTokens)
    }

    constructor (users: seq<User>, nextUserId: int, userRoleExists: bool, refreshTokenExpiryMs: int,
                 createToken: TokenFactory, parseToken: string -> Option<JwtToken.JwtToken>,
                 encode: string -> string, matches: (string, string) -> bool)
      requires UserService.UsersValid(users) && forall i :: 0 <= i < |users| ==> users[i].id < nextUserId
      ensures this.users == users && this.nextUserId == nextUserId && refreshTokens == map[] && nonce == 0
      ensures this.userRoleExists == userRoleExists && this.refreshTokenExpiryMs == refreshTokenExpiryMs
      ensures this.createToken == createToken && this.parseToken == parseToken
      ensures this.encode == encode && this.matches == matches
      ensures Valid()
    {
      this.users := users;
      this.nextUserId := nextUserId;
      refreshTokens := map[];
      nonce := 0;
      this.userRoleExists := userRoleExists;
      this.refreshTokenExpiryMs := refreshTokenExpiryMs;
      this.createToken := createToken;
      this.parseToken := parseToken;
      this.encode := encode;
      this.matches := matches;
    }

    /** The builder's next token for this subject, type and roles. */
    method NewToken(userId: int, tokenType: JwtToken.TokenType, roles: seq<string>) returns (token: string)
      modifies this`nonce
      ensures token == createToken(TokenFilter.DecimalString(userId), tokenType, roles, old(nonce))
      ensures nonce == old(nonce) + 1
    {
      token := createToken(TokenFilter.DecimalString(userId), tokenType, roles, nonce);
      nonce := nonce + 1;
    }

    /** login: an unknown email or a password that does not match is 401.
        Otherwise an access and a refresh token for the user, the refresh token
        saved with the configured lifetime. */
    method Login(email: string, password: string, nowMs: int) returns (r: Result<AuthResponse, Failure>)
      requires Valid()
      modifies this`refreshTokens, this`nonce
      ensures Valid()
      ensures var i := UserService.IndexOf(old(users), UserService.Email(email));
              if i.None? || !matches(password, old(users)[i.value].password) then
                r == Err(ApiException("Invalid username or password", Unauthorized))
                && refreshTokens == old(refreshTokens) && nonce == old(nonce)
              else
                var u := old(users)[i.value];
                var access := createToken(TokenFilter.DecimalString(u.id), JwtToken.Access, u.roles, old(nonce));
                var refresh := createToken(TokenFilter.DecimalString(u.id), JwtToken.Refresh, u.roles, old(nonce) + 1);
                r == Ok(AuthResponse(true, "Login successful", access, refresh))
                && refreshTokens == SaveRefreshToken(old(refreshTokens), refresh, u.id, nowMs, refreshTokenExpiryMs)
                && nonce == old(nonce) + 2
    {
      var found := UserService.IndexOf(users, UserService.Email(email));
      if found.None? || !matches(password, users[found.value].password) {
        return Err(ApiException("Invalid username or password", Unauthorized));
      }
      var u := users[found.value];
      var access := NewToken(u.id, JwtToken.Access, u.roles);
      var refresh := NewToken(u.id, JwtToken.Refresh, u.roles);
      refreshTokens := SaveRefreshToken(refreshTokens, refresh, u.id, nowMs, refreshTokenExpiryMs);
      return Ok(AuthResponse(true, "Login successful", access, refresh));
    }

    /** register: a taken username is 409; a missing USER role is 500; an email
        already registered violates the unique constraint on save (not an
        ApiException). Otherwise the user is stored with the hashed password and
        the USER role, and gets tokens as on login. */
    method Register(username: string, password: string, email: string, mobileNumber: Option<string>, nowMs: int)
      returns (r: Result<AuthResponse, Failure>)
      requires Valid()
      modifies this`users, this`nextUserId, this`refreshTokens, this`nonce
      ensures Valid()
      ensures UserService.UsernameTaken(old(users), username, None) ==>
                r == Err(ApiException("Username already exists", Conflict))
      ensures !UserService.UsernameTaken(old(users), username, None) && !userRoleExists ==>
                r == Err(ApiException("Default role not found", InternalServerError))
      ensures r.Err? ==> users == old(users) && refreshTokens == old(refreshTokens) && nonce == old(nonce)
                         && nextUserId == old(nextUserId)
      ensures r.Ok? <==> !UserService.UsernameTaken(old(users), username, None) && userRoleExists
                         && UserService.IndexOf(old(users), UserService.Email(email)).None?
      ensures r.Ok? ==>
                var id := old(nextUserId);
                var access := createToken(TokenFilter.DecimalString(id), JwtToken.Access, ["USER"], old(nonce));
                var refresh := createToken(TokenFilter.DecimalString(id), JwtToken.Refresh, ["USER"], old(nonce) + 1);
                users == old(users) + [UserService.User(id, username, encode(password), email, mobileNumber, ["USER"])]
                && nextUserId == id + 1
                && r == Ok(AuthResponse(true, "Registration successful", access, refresh))
                && refreshTokens == SaveRefreshToken(old(refreshTokens), refresh, id, nowMs, refreshTokenExpiryMs)
                && nonce == old(nonce) + 2
    {
      if UserService.UsernameTaken(users, username, None) {
        return Err(ApiException("Username already exists", Conflict));
      }
      if !userRoleExists {
        return Err(ApiException("Default role not found", InternalServerError));
      }
      if UserService.IndexOf(users, UserService.Email(email)).Some? {
        return Err(RuntimeException("duplicate email"));
      }
      var id := nextUserId;
      var user := UserService.User(id, username, encode(password), email, mobileNumber, ["USER"]);
      AppendKeepsUsersValid(users, user);
      users := users + [user];
      nextUserId := nextUserId + 1;
      AppendKeepsOwners(old(users), user, refreshTokens);
      var access := NewToken(id, JwtToken.Access, user.roles);
      var refresh := NewToken(id, JwtToken.Refresh, user.roles);
      refreshTokens := SaveRefreshToken(refreshTokens, refresh, id, nowMs, refreshTokenExpiryMs);
      return Ok(AuthResponse(true, "Registration successful", access, refresh));
    }

    /** refreshToken: the checks of RefreshCheck in order; on success new tokens
        for the row's user, a row for the new refresh token, and the old token
        left in the table with two minutes to live. */
    method RefreshToken(token: string, nowMs: int) returns (r: Result<AuthResponse, Failure>)
      requires Valid()
      modifies this`refreshTokens, this`nonce
      ensures Valid()
      ensures var check := RefreshCheck(old(refreshTokens), token, parseToken(token), nowMs);
              if check.Err? then
                r == Err(check.error) && refreshTokens == old(refreshTokens) && nonce == old(nonce)
              else
                var uid := check.value.userId;
                var roles := RolesOf(users, uid);
                var access := createToken(TokenFilter.DecimalString(uid), JwtToken.Access, roles, old(nonce));
                var refresh := createToken(TokenFilter.DecimalString(uid), JwtToken.Refresh, roles, old(nonce) + 1);
                r == Ok(AuthResponse(true, "Token refreshed", access, refresh))
                && refreshTokens == Rotate(old(refreshTokens), token, refresh, uid, nowMs, refreshTokenExpiryMs)
                && nonce == old(nonce) + 2
    {
      var parsed := parseToken(token);
      if parsed.None? || !JwtToken.IsValid(parsed.value, JwtToken.Refresh, nowMs) {
        return Err(ApiException(InvalidRefresh, Unauthorized));
      }
      if token !in refreshTokens {
        return Err(ApiException("Refresh token not found", NotFound));
      }
      var entry := refreshTokens[token];
      if entry.blocked {
        return Err(ApiException("Refresh token is blocked", Unauthorized));
      }
      if entry.expiryMs < nowMs {
        return Err(ApiException("Refresh token expired", Unauthorized));
      }
      var roles := RolesOf(users, entry.userId);
      var access := NewToken(entry.userId, JwtToken.Access, roles);
      var refresh := NewToken(entry.userId, JwtToken.Refresh, roles);
      RotateKeepsOwners(users, refreshTokens, token, refresh, nowMs, refreshTokenExpiryMs);
      refreshTokens := SaveRefreshToken(refreshTokens, refresh, entry.userId, nowMs, refreshTokenExpiryMs);
      refreshTokens := refreshTokens[token := refreshTokens[token].(expiryMs := nowMs + GraceMs)];
      return Ok(AuthResponse(true, "Token refreshed", access, refresh));
    }

    /** logout: a null or empty token is 400, an unknown one 404; otherwise its
        row is deleted. */
    method Logout(token: Option<string>) returns (failure: Option<Failure>)
      requires Valid()
      modifies this`refreshTokens
      ensures Valid()
      ensures (token.None? || token.value == "") ==>
                failure == Some(ApiException("Invalid refresh token", BadRequest)) && refreshTokens == old(refreshTokens)
      ensures token.Some? && token.value != "" && token.value !in old(refreshTokens) ==>
                failure == Some(ApiException("Refresh token not found", NotFound)) && refreshTokens == old(refreshTokens)
      ensures token.Some? && token.value != "" && token.value in old(refreshTokens) ==>
                failure.None? && refreshTokens == old(refreshTokens) - {token.value}
    {
      if token.None? || token.value == "" {
        return Some(ApiException("Invalid refresh token", BadRequest));
      }
      if token.value !in refreshTokens {
        return Some(ApiException("Refresh token not found", NotFound));
      }
      refreshTokens := refreshTokens - {token.value};
      return None;
    }
  }
}
