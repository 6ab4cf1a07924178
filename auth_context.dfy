/** The client's authentication store (frontend/src/context/AuthContext.tsx):
    the signed-in user, the token pair kept in React state (`tokenData`) and in
    a ref (`tokenRef`, read by the API client), and the loading flag. */
module AuthContext {
  import opened Wrappers
  import Jwt
  import Browser

  datatype TokenData = TokenData(refreshToken: string, accessToken: string)

  datatype User = User(id: string, roles: seq<string>)

  /** The storage keys of the two tokens. */
  const AccessTokenKey: string := "accessToken"
  const RefreshTokenKey: string := "refreshToken"

  /** The user described by an access token: its subject and roles. */
  function UserFromToken(decode: Jwt.Decoder, accessToken: string): (u: User)
    ensures decode(accessToken).None? ==> u == User("", [])
    ensures decode(accessToken).Some? ==> u.id == decode(accessToken).value.sub
    ensures decode(accessToken).Some? ==> u.roles == decode(accessToken).value.roles.GetOr([])
  {
    var d := Jwt.ExtractDataFromToken(decode, accessToken);
    User(d.id, d.roles)
  }

  /** The pair hydration restores: both values stored and non-empty (truthy). */
  function StoredPair(storage: map<string, string>): (p: Option<TokenData>)
    ensures p.Some? <==> AccessTokenKey in storage && storage[AccessTokenKey] != ""
                         && RefreshTokenKey in storage && storage[RefreshTokenKey] != ""
    ensures p.Some? ==> p.value == TokenData(storage[RefreshTokenKey], storage[AccessTokenKey])
  {
    if AccessTokenKey in storage && storage[AccessTokenKey] != ""
       && RefreshTokenKey in storage && storage[RefreshTokenKey] != ""
    then Some(TokenData(storage[RefreshTokenKey], storage[AccessTokenKey]))
    else None
  }

  class AuthProvider {
    var user: Option<User>
    var tokenData: Option<TokenData>
    var tokenRef: Option<TokenData>
    var loading: bool
    /** jwt-decode, used to read the user from an access token. */
    const decode: Jwt.Decoder

    /** The initial state: nobody signed in, loading. */
    constructor (decode: Jwt.Decoder)
      ensures user == None && tokenData == None && tokenRef == None && loading
      ensures this.decode == decode
    {
      user, tokenData, tokenRef, loading := None, None, None, true;
      this.decode := decode;
    }

    /** getToken: the content of the ref. */
    function GetToken(): Option<TokenData>
      reads this
    {
      tokenRef
    }

    /** setToken: whatever is set, null included, is what getToken returns next. */
    method SetToken(token: Option<TokenData>)
      modifies this`tokenRef
      ensures GetToken() == token
    {
      tokenRef := token;
    }

    method SetUser(u: Option<User>)
      modifies this`user
      ensures user == u
    {
      user := u;
    }

    method SetTokenData(t: Option<TokenData>)
      modifies this`tokenData
      ensures tokenData == t
    {
      tokenData := t;
    }

    /** getIsAdmin: a signed-in user whose roles include "ADMIN". */
    function GetIsAdmin(): (admin: bool)
      reads this
      ensures user.None? ==> !admin
      ensures user.Some? ==> (admin <==> exists i :: 0 <= i < |user.value.roles| && user.value.roles[i] == "ADMIN")
    {
      user.Some? && "ADMIN" in user.value.roles
    }

    /** The session is held consistently: React state and ref agree, a user is
        signed in exactly when tokens are held, that user is the one the access
        token names, and local storage holds the same two tokens. */
    predicate AgreesWith(storage: map<string, string>)
      reads this
    {
      tokenData == tokenRef
      && (tokenRef.None? ==> user.None?)
      && (tokenRef.Some? ==>
            user == Some(UserFromToken(decode, tokenRef.value.accessToken))
            && AccessTokenKey in storage && storage[AccessTokenKey] == tokenRef.value.accessToken
            && RefreshTokenKey in storage && storage[RefreshTokenKey] == tokenRef.value.refreshToken)
    }

    /** initAuth: restores the session from storage when both tokens are stored
        and non-empty (the user is read from the access token); otherwise the
        store is left as it was. Loading is over at the end either way. */
    method InitAuth(browser: Browser.Browser)
      modifies this`user, this`tokenData, this`tokenRef, this`loading
      ensures !loading
      ensures StoredPair(browser.storage).None? ==>
                user == old(user) && tokenData == old(tokenData) && tokenRef == old(tokenRef)
      ensures StoredPair(browser.storage).Some? ==>
                var pair := StoredPair(browser.storage).value;
                tokenRef == Some(pair) && tokenData == Some(pair)
                && user == Some(UserFromToken(decode, pair.accessToken))
      ensures StoredPair(browser.storage).Some? || old(AgreesWith(browser.storage)) ==> AgreesWith(browser.storage)
    {
      loading := true;
      var accessToken := browser.GetItem(AccessTokenKey);
      var refreshToken := browser.GetItem(RefreshTokenKey);
      if accessToken.Some? && accessToken.value != "" && refreshToken.Some? && refreshToken.value != "" {
        user := Some(UserFromToken(decode, accessToken.value));
        tokenData := Some(TokenData(refreshToken.value, accessToken.value));
        tokenRef := Some(TokenData(refreshToken.value, accessToken.value));
      }
      loading := false;
    }
  }
}
