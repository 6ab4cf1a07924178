/** Reading the claims of an access token on the client (frontend/src/lib/jwt.ts).
    Decoding is the `jwt-decode` library: a partial function from the token text
    to its claims, `None` where the library throws. */
module Jwt {
  import opened Wrappers

  /** The claims the client reads: subject, optional roles list, optional expiry in seconds. */
  datatype Claims = Claims(sub: string, roles: Option<seq<string>>, exp: Option<int>)

  /** What extractDataFromToken returns. */
  datatype TokenFields = TokenFields(id: string, roles: seq<string>, exp: Option<int>)

  type Decoder = string -> Option<Claims>

  /** extractDataFromToken: the subject, the roles (an empty list when the claim
      is missing) and the expiry; an undecodable token gives "", [] and 0. */
  function ExtractDataFromToken(decode: Decoder, token: string): (d: TokenFields)
    ensures decode(token).None? ==> d == TokenFields("", [], Some(0))
    ensures decode(token).Some? ==> d.id == decode(token).value.sub && d.exp == decode(token).value.exp
    ensures decode(token).Some? && decode(token).value.roles.None? ==> d.roles == []
    ensures decode(token).Some? && decode(token).value.roles.Some? ==> d.roles == decode(token).value.roles.value
  {
    match decode(token)
    case None => TokenFields("", [], Some(0))
    case Some(c) => TokenFields(c.sub, c.roles.GetOr([]), c.exp)
  }

  /** isTokenExpired: `!exp || Date.now() >= exp * 1000`. */
  function IsTokenExpired(decode: Decoder, token: string, nowMs: int): (expired: bool)
    ensures decode(token).None? ==> expired
    ensures decode(token).Some? ==>
              (expired <==> match decode(token).value.exp
                            case None => true
                            case Some(e) => e == 0 || nowMs >= e * 1000)
  {
    var exp := ExtractDataFromToken(decode, token).exp;
    exp.None? || exp.value == 0 || nowMs >= exp.value * 1000
  }

  /** A token is already expired at the very millisecond its expiry names. */
  lemma ExpiredAtBoundary(decode: Decoder, token: string, nowMs: int)
    requires decode(token).Some? && decode(token).value.exp.Some?
    requires nowMs == decode(token).value.exp.value * 1000
    ensures IsTokenExpired(decode, token, nowMs)
  {
  }

  /** Once expired, a token stays expired as time goes on. */
  lemma ExpiryIsPermanent(decode: Decoder, token: string, t1: int, t2: int)
    requires t1 <= t2 && IsTokenExpired(decode, token, t1)
    ensures IsTokenExpired(decode, token, t2)
  {
  }

  /** A token carrying a non-zero expiry is live exactly before that instant. */
  lemma LiveExactlyBeforeExpiry(decode: Decoder, token: string, nowMs: int)
    requires decode(token).Some? && decode(token).value.exp.Some? && decode(token).value.exp.value != 0
    ensures !IsTokenExpired(decode, token, nowMs) <==> nowMs < decode(token).value.exp.value * 1000
  {
  }
}
