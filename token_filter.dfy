/** The request filter that turns a bearer access token into an authenticated
    principal (backend/.../middleware/TokenAuthenticationFilter.java). The
    token parser (signature and issuer check, `typ` claim lookup) is a
    parameter: `None` where it returns null or throws. */
module TokenFilter {
  import opened Wrappers
  import JwtToken

  const MinLong: int := -0x8000_0000_0000_0000
  const MaxLong: int := 0x7FFF_FFFF_FFFF_FFFF

  type TokenParser = string -> Option<JwtToken.JwtToken>

  /** extractToken: the text after "Bearer " when the header starts with it. */
  function ExtractToken(header: Option<string>): (token: Option<string>)
    ensures token.Some? <==> header.Some? && |header.value| >= 7 && header.value[..7] == "Bearer "
    ensures token.Some? ==> header.value == "Bearer " + token.value
  {
    if header.Some? && |header.value| >= 7 && header.value[..7] == "Bearer " then
      assert header.value == header.value[..7] + header.value[7..];
      Some(header.value[7..])
    else None
  }

  lemma BearerHeaderRoundTrip(token: string)
    ensures ExtractToken(Some("Bearer " + token)) == Some(token)
  {
    var h := "Bearer " + token;
    assert h[..7] == "Bearer ";
    assert h[7..] == token;
  }

  predicate IsDigit(c: char) {
    '0' <= c <= '9'
  }

  predicate AllDigits(s: string) {
    forall i :: 0 <= i < |s| ==> IsDigit(s[i])
  }

  /** The value of a string of decimal digits, most significant first. */
  function DigitsValue(s: string): nat
    requires AllDigits(s)
  {
    if s == [] then 0 else DigitsValue(s[..|s| - 1]) * 10 + (s[|s| - 1] as int - '0' as int)
  }

  /** The text Long.valueOf accepts: an optional sign, at least one digit, and a
      value within the 64-bit range. */
  predicate WellFormedLong(text: string) {
    |text| > 0 &&
    var signed := text[0] == '-' || text[0] == '+';
    var digits := if signed then text[1..] else text;
    |digits| > 0 && AllDigits(digits) &&
    (if text[0] == '-' then DigitsValue(digits) <= -MinLong else DigitsValue(digits) <= MaxLong)
  }

  /** Long.valueOf(String) for ASCII input: an optional '+' or '-', then at least
      one digit, and a value inside the 64-bit range; null and anything else
      raise NumberFormatException (`None`). */
  function ParseLong(s: Option<string>): (n: Option<int>)
    ensures n.Some? ==> MinLong <= n.value <= MaxLong
    ensures n.Some? ==> s.Some? && |s.value| > 0
    ensures n.Some? && IsDigit(s.value[0]) ==> AllDigits(s.value) && n.value == DigitsValue(s.value)
    ensures n.Some? && s.value[0] == '-' ==> AllDigits(s.value[1..]) && n.value == -(DigitsValue(s.value[1..]) as int)
    ensures n.Some? && s.value[0] == '+' ==> AllDigits(s.value[1..]) && n.value == DigitsValue(s.value[1..])
    ensures n.Some? <==> s.Some? && WellFormedLong(s.value)
  {
    if s.None? || |s.value| == 0 then None
    else
      var text := s.value;
      var neg := text[0] == '-';
      var body := if text[0] == '-' || text[0] == '+' then text[1..] else text;
      if |body| == 0 || !AllDigits(body) then None
      else
        var v: int := if neg then -(DigitsValue(body) as int) else DigitsValue(body);
        if MinLong <= v <= MaxLong then Some(v) else None
  }

  function DigitChar(d: int): (c: char)
    requires 0 <= d <= 9
    ensures IsDigit(c) && c as int - '0' as int == d
  {
    ('0' as int + d) as char
  }

  /** String.valueOf(long) for a non-negative value. */
  function NaturalString(n: nat): (s: string)
    ensures |s| > 0 && AllDigits(s)
  {
    if n < 10 then [DigitChar(n)] else NaturalString(n / 10) + [DigitChar(n % 10)]
  }

  /** String.valueOf(long). */
  function DecimalString(n: int): string {
    if n < 0 then "-" + NaturalString(-n) else NaturalString(n)
  }

  lemma {:induction false} NaturalStringValue(n: nat)
    ensures DigitsValue(NaturalString(n)) == n
  {
    if n >= 10 {
      var s := NaturalString(n);
      assert s[..|s| - 1] == NaturalString(n / 10);
      NaturalStringValue(n / 10);
    }
  }

  /** Parsing the decimal text of any 64-bit value gives that value back, so a
      subject written as String.valueOf(userId) yields the user id. */
  lemma ParseLongRoundTrip(n: int)
    requires MinLong <= n <= MaxLong
    ensures ParseLong(Some(DecimalString(n))) == Some(n)
  {
    if n < 0 {
      var s := DecimalString(n);
      assert s[1..] == NaturalString(-n);
      NaturalStringValue(-n);
    } else {
      NaturalStringValue(n);
    }
  }

  /** The authorities granted: "ROLE_" + role per role, in order; no list, none. */
  function Authorities(roles: Option<seq<string>>): (auth: seq<string>)
    ensures roles.None? ==> auth == []
    ensures roles.Some? ==> |auth| == |roles.value|
    ensures roles.Some? ==> forall i :: 0 <= i < |auth| ==> auth[i] == "ROLE_" + roles.value[i]
  {
    match roles
    case None => []
    case Some(rs) => Prefixed(rs)
  }

  function Prefixed(rs: seq<string>): (auth: seq<string>)
    ensures |auth| == |rs|
    ensures forall i :: 0 <= i < |auth| ==> auth[i] == "ROLE_" + rs[i]
  {
    if rs == [] then [] else Prefixed(rs[..|rs| - 1]) + ["ROLE_" + rs[|rs| - 1]]
  }

  datatype Authentication = Authentication(principal: int, authorities: seq<string>)

  /** What doFilterInternal does with one request: pass it on (with or without an
      authentication), or answer 401 without passing it on. */
  datatype Outcome = PassOn(authentication: Option<Authentication>) | Unauthorized

  function Decide(header: Option<string>, parse: TokenParser, nowMs: int): (o: Outcome)
    ensures (ExtractToken(header).None? || ExtractToken(header) == Some("")) ==> o == PassOn(None)
    ensures o.PassOn? && o.authentication.Some? ==>
              exists t :: ExtractToken(header) == Some(t) && t != "" && parse(t).Some?
                          && JwtToken.IsValid(parse(t).value, JwtToken.Access, nowMs)
                          && ParseLong(JwtToken.GetSubject(parse(t).value)) == Some(o.authentication.value.principal)
                          && o.authentication.value.authorities == Authorities(Some(JwtToken.GetRoles(parse(t).value)))
    ensures o.PassOn? && ExtractToken(header).Some? && ExtractToken(header) != Some("") ==> o.authentication.Some?
    ensures ExtractToken(header).Some? && ExtractToken(header) != Some("") ==>
              var t := ExtractToken(header).value;
              (o.Unauthorized? <==>
                 (parse(t).None? || !JwtToken.IsValid(parse(t).value, JwtToken.Access, nowMs)
                  || ParseLong(JwtToken.GetSubject(parse(t).value)).None?))
  {
    var token := ExtractToken(header);
    if token.None? || token.value == "" then PassOn(None)
    else match parse(token.value)
      case None => Unauthorized
      case Some(parsed) =>
        if !JwtToken.IsValid(parsed, JwtToken.Access, nowMs) then Unauthorized
        else match ParseLong(JwtToken.GetSubject(parsed))
          case None => Unauthorized
          case Some(principal) =>
            PassOn(Some(Authentication(principal, Authorities(Some(JwtToken.GetRoles(parsed))))))
  }

  /** A live access token issued for user `id` (its subject is String.valueOf(id))
      authenticates as exactly that user, with its roles prefixed by "ROLE_". */
  lemma IssuedAccessTokenAuthenticates(parse: TokenParser, text: string, id: int, nowMs: int)
    requires MinLong <= id <= MaxLong && text != ""
    requires parse(text).Some? && parse(text).value.tokenType == JwtToken.Access
    requires parse(text).value.claims.subject == Some(DecimalString(id))
    requires nowMs <= parse(text).value.claims.expirationMs
    ensures Decide(Some("Bearer " + text), parse, nowMs)
            == PassOn(Some(Authentication(id, Authorities(Some(JwtToken.GetRoles(parse(text).value))))))
  {
    BearerHeaderRoundTrip(text);
    ParseLongRoundTrip(id);
  }

  /** A refresh token is never accepted as an access credential. */
  lemma RefreshTokenIsRejected(parse: TokenParser, text: string, nowMs: int)
    requires text != "" && parse(text).Some? && parse(text).value.tokenType == JwtToken.Refresh
    ensures Decide(Some("Bearer " + text), parse, nowMs) == Unauthorized
  {
    BearerHeaderRoundTrip(text);
  }

  /** A live access token whose subject is missing or not a long (Long.valueOf
      throws) is answered 401 rather than passed on. */
  lemma NonNumericSubjectIsRejected(parse: TokenParser, text: string, nowMs: int)
    requires text != "" && parse(text).Some? && JwtToken.IsValid(parse(text).value, JwtToken.Access, nowMs)
    requires var subject := JwtToken.GetSubject(parse(text).value);
             subject.None? || !WellFormedLong(subject.value)
    ensures Decide(Some("Bearer " + text), parse, nowMs) == Unauthorized
  {
    BearerHeaderRoundTrip(text);
  }

  class HttpResponse {
    var status: int
    constructor ()
      ensures status == 200
    {
      status := 200;
    }
  }

  class SecurityContext {
    var authentication: Option<Authentication>
    constructor ()
      ensures authentication.None?
    {
      authentication := None;
    }
  }

  class TokenAuthenticationFilter {
    const tokenBuilder: TokenParser

    constructor (tokenBuilder: TokenParser)
      ensures this.tokenBuilder == tokenBuilder
    {
      this.tokenBuilder := tokenBuilder;
    }

    /** doFilterInternal: `continued` says whether the rest of the chain runs. On
        401 the status is set and nothing else changes; on success the
        authentication is stored in the context. */
    method DoFilterInternal(header: Option<string>, nowMs: int, response: HttpResponse, context: SecurityContext)
      returns (continued: bool)
      modifies response, context
      ensures continued <==> Decide(header, tokenBuilder, nowMs).PassOn?
      ensures !continued ==> response.status == 401 && context.authentication == old(context.authentication)
      ensures continued ==> response.status == old(response.status)
      ensures continued && Decide(header, tokenBuilder, nowMs).authentication.Some? ==>
                context.authentication == Decide(header, tokenBuilder, nowMs).authentication
      ensures continued && Decide(header, tokenBuilder, nowMs).authentication.None? ==>
                context.authentication == old(context.authentication)
    {
      var token := ExtractToken(header);
      if token.None? || token.value == "" {
        return true;
      }
      var parsed := tokenBuilder(token.value);
      if parsed.None? || !JwtToken.IsValid(parsed.value, JwtToken.Access, nowMs) {
        response.status := 401;
        return false;
      }
      var principal := ParseLong(JwtToken.GetSubject(parsed.value));
      if principal.None? {
        // Long.valueOf threw: the catch block answers 401
        response.status := 401;
        return false;
      }
      var roles := JwtToken.GetRoles(parsed.value);
      context.authentication := Some(Authentication(principal.value, Authorities(Some(roles))));
      return true;
    }
  }
}
