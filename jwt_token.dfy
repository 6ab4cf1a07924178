/** The server-side parsed token (backend/.../token/JwtToken.java): read-only
    accessors over its claims. Parsing and signing (jjwt) are outside the model:
    a token value is what parsing produced. */
module JwtToken {
  import opened Wrappers
  import Jwt

  datatype TokenType = Access | Refresh

  /** The claims a parsed token exposes. The expiration is in milliseconds. The
      roles claim is a list whose entries may be null (`None`); a non-null entry
      is given by its `String.valueOf` text. */
  datatype TokenClaims = TokenClaims(
    id: Option<string>, subject: Option<string>, issuer: Option<string>,
    audience: Option<string>, expirationMs: int, issuedAtMs: int,
    roles: Option<seq<Option<string>>>)

  datatype JwtToken = JwtToken(tokenString: string, claims: TokenClaims, tokenType: TokenType)

  /** The non-null entries of a list, in their order. */
  function NonNull(s: seq<Option<string>>): (r: seq<string>)
    ensures |r| <= |s|
  {
    if s == [] then [] else
    var rest := NonNull(s[..|s| - 1]);
    match s[|s| - 1]
    case None => rest
    case Some(x) => rest + [x]
  }

  /** NonNull keeps exactly the non-null entries. */
  lemma {:induction false} NonNullMembers(s: seq<Option<string>>, x: string)
    ensures x in NonNull(s) <==> Some(x) in s
  {
    if s != [] {
      NonNullMembers(s[..|s| - 1], x);
      assert s == s[..|s| - 1] + [s[|s| - 1]];
    }
  }

  lemma NonNullKeepsExactly(s: seq<Option<string>>)
    ensures forall x :: x in NonNull(s) <==> Some(x) in s
  {
    forall x {
      NonNullMembers(s, x);
    }
  }

  /** NonNull distributes over concatenation, so relative order is kept. */
  lemma {:induction false} NonNullAppend(a: seq<Option<string>>, b: seq<Option<string>>)
    ensures NonNull(a + b) == NonNull(a) + NonNull(b)
  {
    if b != [] {
      assert (a + b)[..|a + b| - 1] == a + b[..|b| - 1];
      NonNullAppend(a, b[..|b| - 1]);
    } else {
      assert a + b == a;
    }
  }

  function GetToken(t: JwtToken): string {
    t.tokenString
  }

  /** getType: the scheme name used in the Authorization header. */
  function GetType(t: JwtToken): (s: string)
    ensures s == "Bearer"
  {
    "Bearer"
  }

  /** getRoles: the non-null entries of the roles claim as strings, in order;
      an absent claim gives the empty list. */
  function GetRoles(t: JwtToken): (roles: seq<string>)
    ensures t.claims.roles.None? ==> roles == []
    ensures t.claims.roles.Some? ==> forall x :: x in roles <==> Some(x) in t.claims.roles.value
  {
    match t.claims.roles
    case None => []
    case Some(ls) =>
      NonNullKeepsExactly(ls);
      NonNull(ls)
  }

  function GetSubject(t: JwtToken): Option<string> {
    t.claims.subject
  }

  function GetId(t: JwtToken): Option<string> {
    t.claims.id
  }

  /** getString reads the same claim as getId (the token id), not the token text. */
  function GetString(t: JwtToken): (s: Option<string>)
    ensures s == GetId(t)
  {
    t.claims.id
  }

  /** isValid: not expired before now and of the requested type; a token whose
      expiration equals the current instant is still valid. */
  function IsValid(t: JwtToken, tokenType: TokenType, nowMs: int): (valid: bool)
    ensures valid <==> nowMs <= t.claims.expirationMs && t.tokenType == tokenType
  {
    !(t.claims.expirationMs < nowMs) && t.tokenType == tokenType
  }

  /** Client and server disagree only at the boundary. For an access token whose
      expiry is `e` seconds (the server reads it as e * 1000 ms), the server
      accepts it exactly when the client considers it live, except at the
      instant e * 1000 itself, where the server still accepts it and the client
      already calls it expired. */
  lemma ClientAndServerExpiry(decode: Jwt.Decoder, text: string, t: JwtToken, nowMs: int)
    requires decode(text).Some? && decode(text).value.exp.Some?
    requires decode(text).value.exp.value != 0
    requires t.tokenType == Access && t.claims.expirationMs == decode(text).value.exp.value * 1000
    ensures nowMs != t.claims.expirationMs ==>
              (IsValid(t, Access, nowMs) <==> !Jwt.IsTokenExpired(decode, text, nowMs))
    ensures nowMs == t.claims.expirationMs ==>
              IsValid(t, Access, nowMs) && Jwt.IsTokenExpired(decode, text, nowMs)
  {
  }
}
