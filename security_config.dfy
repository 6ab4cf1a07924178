/** Two pieces of the security configuration (backend/.../config/SecurityConfig.java):
    choosing the token builder from the configured token type, and reading the
    comma-separated list of allowed CORS origins. The filter-chain rules
    themselves are Spring configuration and are not modelled. */
module SecurityConfig {
  import opened Wrappers

  const DefaultAccessExpirationMs: int := 900000
  const DefaultRefreshExpirationMs: int := 604800000
  const DefaultSecret: string := "safekab_secret_key"
  const DefaultIssuer: string := "safekab"
  const DefaultTokenType: string := "JWT"

  /** The settings a JwtBuilder is constructed with. */
  datatype JwtBuilder = JwtBuilder(accessTokenValidityMs: int, refreshTokenValidityMs: int, secretKey: string, issuer: string)

  function LowerAscii(c: char): char {
    if 'A' <= c <= 'Z' then (c as int + 32) as char else c
  }

  /** String.equalsIgnoreCase, for ASCII text. */
  predicate EqualsIgnoreCase(a: string, b: string) {
    |a| == |b| && forall i :: 0 <= i < |a| ==> LowerAscii(a[i]) == LowerAscii(b[i])
  }

  /** tokenBuilder: "JWT" in any letter case selects JwtBuilder with the given
      settings; any other type is an IllegalArgumentException naming it. */
  function TokenBuilder(accessMs: int, refreshMs: int, secret: string, issuer: string, tokenType: string)
    : (r: Result<JwtBuilder, string>)
    ensures r.Ok? <==> EqualsIgnoreCase(tokenType, "JWT")
    ensures r.Ok? ==> r.value == JwtBuilder(accessMs, refreshMs, secret, issuer)
    ensures r.Err? ==> r.error == "Unsupported token type for app.token.type: " + tokenType
  {
    if EqualsIgnoreCase(tokenType, "JWT") then Ok(JwtBuilder(accessMs, refreshMs, secret, issuer))
    else Err("Unsupported token type for app.token.type: " + tokenType)
  }

  /** The unconfigured defaults select a JwtBuilder with 15-minute access and
      7-day refresh validity. */
  lemma DefaultsSelectJwt()
    ensures TokenBuilder(DefaultAccessExpirationMs, DefaultRefreshExpirationMs, DefaultSecret, DefaultIssuer, DefaultTokenType)
            == Ok(JwtBuilder(900000, 604800000, "safekab_secret_key", "safekab"))
  {
  }

  /** Every letter-case spelling of "jwt" is accepted, and nothing of another length is. */
  lemma TokenTypeSpellings(t: string)
    ensures |t| == 3 && t[0] in "jJ" && t[1] in "wW" && t[2] in "tT" ==> TokenBuilder(1, 1, "", "", t).Ok?
    ensures |t| != 3 ==> TokenBuilder(1, 1, "", "", t).Err?
  {
  }

  /** String.split(","): the pieces between commas, in order. (Java drops trailing
      empty pieces; they would be dropped below anyway.) */
  function Split(s: string): (pieces: seq<string>)
    ensures |pieces| >= 1
  {
    if s == [] then [""]
    else if s[0] == ',' then [""] + Split(s[1..])
    else
      var rest := Split(s[1..]);
      [[s[0]] + rest[0]] + rest[1..]
  }

  /** Pieces rejoined with commas: the inverse of Split. */
  function Join(pieces: seq<string>): string
    requires |pieces| >= 1
  {
    if |pieces| == 1 then pieces[0] else pieces[0] + "," + Join(pieces[1..])
  }

  lemma {:induction false} SplitPieceThenRest(p: string, rest: string)
    requires ',' !in p
    ensures Split(p + "," + rest) == [p] + Split(rest)
    ensures Split(p) == [p]
  {
    if p != [] {
      assert (p + "," + rest)[1..] == p[1..] + "," + rest;
      SplitPieceThenRest(p[1..], rest);
      assert [p[0]] + p[1..] == p;
    }
  }

  lemma {:induction false} SplitJoin(pieces: seq<string>)
    requires |pieces| >= 1
    requires forall i :: 0 <= i < |pieces| ==> ',' !in pieces[i]
    ensures Split(Join(pieces)) == pieces
  {
    if |pieces| == 1 {
      SplitPieceThenRest(pieces[0], "");
    } else {
      SplitPieceThenRest(pieces[0], Join(pieces[1..]));
      SplitJoin(pieces[1..]);
    }
  }

  /** Characters String.trim removes: everything up to and including the space. */
  predicate IsTrimmed(c: char) {
    c <= ' '
  }

  /** Strips the leading characters trim removes. */
  function TrimStart(s: string): (r: string)
    ensures |r| <= |s| && r == s[|s| - |r|..]
    ensures forall i :: 0 <= i < |s| - |r| ==> IsTrimmed(s[i])
    ensures r != [] ==> !IsTrimmed(r[0])
  {
    if s != [] && IsTrimmed(s[0]) then TrimStart(s[1..]) else s
  }

  /** Strips the trailing characters trim removes. */
  function TrimEnd(s: string): (r: string)
    ensures |r| <= |s| && r == s[..|r|]
    ensures forall i :: |r| <= i < |s| ==> IsTrimmed(s[i])
    ensures r != [] ==> !IsTrimmed(r[|r| - 1])
  {
    if s != [] && IsTrimmed(s[|s| - 1]) then TrimEnd(s[..|s| - 1]) else s
  }

  /** String.trim: the text between the first and last character above ' '. */
  function Trim(s: string): (r: string)
    ensures r != [] ==> !IsTrimmed(r[0]) && !IsTrimmed(r[|r| - 1])
    ensures r == [] <==> forall i :: 0 <= i < |s| ==> IsTrimmed(s[i])
    ensures forall c :: c in r ==> c in s
  {
    var t := TrimStart(s);
    TrimEnd(t)
  }

  predicate Blank(s: string) {
    forall i :: 0 <= i < |s| ==> IsTrimmed(s[i])
  }

  /** A text whose ends are not blank. */
  predicate Clean(s: string) {
    s != [] && !IsTrimmed(s[0]) && !IsTrimmed(s[|s| - 1])
  }

  lemma {:induction false} TrimStartPadded(pad: string, t: string)
    requires Blank(pad) && (t == [] || !IsTrimmed(t[0]))
    ensures TrimStart(pad + t) == t
  {
    if pad != [] {
      assert (pad + t)[1..] == pad[1..] + t;
      TrimStartPadded(pad[1..], t);
    } else {
      assert pad + t == t;
    }
  }

  lemma {:induction false} TrimEndPadded(t: string, pad: string)
    requires Blank(pad) && (t == [] || !IsTrimmed(t[|t| - 1]))
    ensures TrimEnd(t + pad) == t
  {
    if pad != [] {
      assert (t + pad)[..|t + pad| - 1] == t + pad[..|pad| - 1];
      TrimEndPadded(t, pad[..|pad| - 1]);
    } else {
      assert t + pad == t;
    }
  }

  /** Trimming removes exactly the blank padding around a clean text. With
      Trim's own contract for all-blank input this fixes Trim on every string:
      any string is either blank or padding, a clean core and padding. */
  lemma TrimPadded(before: string, core: string, after: string)
    requires Blank(before) && Clean(core) && Blank(after)
    ensures Trim(before + core + after) == core
  {
    assert before + core + after == before + (core + after);
    TrimStartPadded(before, core + after);
    TrimEndPadded(core, after);
  }

  /** A string with nothing to trim at either end is left as it is. */
  lemma TrimClean(s: string)
    requires s != [] && !IsTrimmed(s[0]) && !IsTrimmed(s[|s| - 1])
    ensures Trim(s) == s
  {
  }

  /** The non-empty trimmed pieces, in order. */
  function KeptOrigins(pieces: seq<string>): (origins: seq<string>)
    ensures |origins| <= |pieces|
    ensures forall i :: 0 <= i < |origins| ==>
              origins[i] != [] && !IsTrimmed(origins[i][0]) && !IsTrimmed(origins[i][|origins[i]| - 1])
  {
    if pieces == [] then []
    else
      var o := Trim(pieces[|pieces| - 1]);
      KeptOrigins(pieces[..|pieces| - 1]) + (if o == [] then [] else [o])
  }

  /** The origins registered for a configured list. */
  function Origins(allowedOrigins: string): seq<string> {
    KeptOrigins(Split(allowedOrigins))
  }

  lemma {:induction false} KeptOriginsOfClean(pieces: seq<string>)
    requires forall i :: 0 <= i < |pieces| ==>
               pieces[i] != [] && !IsTrimmed(pieces[i][0]) && !IsTrimmed(pieces[i][|pieces[i]| - 1])
    ensures KeptOrigins(pieces) == pieces
  {
    if pieces != [] {
      KeptOriginsOfClean(pieces[..|pieces| - 1]);
      TrimClean(pieces[|pieces| - 1]);
      assert pieces == pieces[..|pieces| - 1] + [pieces[|pieces| - 1]];
    }
  }

  /** A list of clean origins joined with commas is read back exactly, in order. */
  lemma OriginsRoundTrip(origins: seq<string>)
    requires |origins| >= 1
    requires forall i :: 0 <= i < |origins| ==>
               origins[i] != [] && ',' !in origins[i] && !IsTrimmed(origins[i][0]) && !IsTrimmed(origins[i][|origins[i]| - 1])
    ensures Origins(Join(origins)) == origins
  {
    SplitJoin(origins);
    KeptOriginsOfClean(origins);
  }

  /** Origins are kept piece by piece: the pieces of a concatenation give the
      origins of the first part followed by those of the second. */
  lemma {:induction false} KeptOriginsAppend(a: seq<string>, b: seq<string>)
    ensures KeptOrigins(a + b) == KeptOrigins(a) + KeptOrigins(b)
  {
    if b == [] {
      assert a + b == a;
    } else {
      var init, last := b[..|b| - 1], b[|b| - 1];
      SnocShape(a, b);
      var t := if Trim(last) == [] then [] else [Trim(last)];
      var ka, ki := KeptOrigins(a), KeptOrigins(init);
      calc {
        KeptOrigins(a + b);
        KeptOrigins((a + init) + [last]);
        { KeptOriginsSnoc(a + init, last); }
        KeptOrigins(a + init) + t;
        { KeptOriginsAppend(a, init); }
        (ka + ki) + t;
        ka + (ki + t);
        { KeptOriginsSnoc(init, last); }
        ka + KeptOrigins(b);
      }
    }
  }

  lemma SnocShape(a: seq<string>, b: seq<string>)
    requires b != []
    ensures b == b[..|b| - 1] + [b[|b| - 1]]
    ensures a + b == (a + b[..|b| - 1]) + [b[|b| - 1]]
  {
  }

  /** One more piece at the end adds its trimmed text, unless that is empty. */
  lemma KeptOriginsSnoc(pieces: seq<string>, last: string)
    ensures KeptOrigins(pieces + [last]) == KeptOrigins(pieces) + (if Trim(last) == [] then [] else [Trim(last)])
  {
    var c := pieces + [last];
    assert c[..|c| - 1] == pieces && c[|c| - 1] == last;
  }

  /** One piece contributes its trimmed text, unless that is empty. */
  lemma KeptOriginsSingle(piece: string)
    ensures KeptOrigins([piece]) == (if Trim(piece) == [] then [] else [Trim(piece)])
  {
    assert [piece][..0] == [];
  }

  /** One comma-separated entry of the property: a blank entry, or an origin
      with blank padding on either side. */
  datatype Entry = BlankEntry(text: string) | Padded(before: string, origin: string, after: string)

  predicate EntryOk(e: Entry) {
    match e
    case BlankEntry(t) => Blank(t)
    case Padded(b, o, a) => Blank(b) && Clean(o) && ',' !in o && Blank(a)
  }

  function EntryText(e: Entry): string {
    match e
    case BlankEntry(t) => t
    case Padded(b, o, a) => b + o + a
  }

  function EntryTexts(es: seq<Entry>): (texts: seq<string>)
    ensures |texts| == |es|
    ensures forall i :: 0 <= i < |es| ==> texts[i] == EntryText(es[i])
  {
    if es == [] then [] else [EntryText(es[0])] + EntryTexts(es[1..])
  }

  /** The origins the entries name, in order. */
  function EntryOrigins(es: seq<Entry>): seq<string> {
    if es == [] then []
    else (match es[0] case BlankEntry(_) => [] case Padded(_, o, _) => [o]) + EntryOrigins(es[1..])
  }

  /** Blank characters are never a comma. */
  lemma BlankHasNoComma(s: string)
    requires Blank(s)
    ensures ',' !in s
  {
  }

  lemma {:induction false} KeptOriginsOfEntries(es: seq<Entry>)
    requires forall i :: 0 <= i < |es| ==> EntryOk(es[i])
    ensures KeptOrigins(EntryTexts(es)) == EntryOrigins(es)
  {
    if es != [] {
      var texts := EntryTexts(es);
      assert texts == [EntryText(es[0])] + EntryTexts(es[1..]);
      KeptOriginsAppend([EntryText(es[0])], EntryTexts(es[1..]));
      KeptOriginsSingle(EntryText(es[0]));
      KeptOriginsOfEntries(es[1..]);
      match es[0]
      case BlankEntry(t) =>
      case Padded(b, o, a) =>
        TrimPadded(b, o, a);
    }
  }

  /** The configured property read back: any list of entries, each an origin in
      blank padding or a blank entry, joined with commas, registers exactly the
      entries' origins in their order. */
  lemma OriginsOfPaddedEntries(es: seq<Entry>)
    requires |es| >= 1
    requires forall i :: 0 <= i < |es| ==> EntryOk(es[i])
    ensures Origins(Join(EntryTexts(es))) == EntryOrigins(es)
  {
    var texts := EntryTexts(es);
    forall i | 0 <= i < |texts|
      ensures ',' !in texts[i]
    {
      match es[i]
      case BlankEntry(t) =>
        BlankHasNoComma(t);
      case Padded(b, o, a) =>
        BlankHasNoComma(b);
        BlankHasNoComma(a);
        assert texts[i] == b + o + a;
    }
    SplitJoin(texts);
    KeptOriginsOfEntries(es);
  }

  /** corsConfigurationSource's loop: split on ',', trim each piece and register
      the non-empty ones. */
  method AllowedOrigins(allowedOrigins: string) returns (origins: seq<string>)
    ensures origins == Origins(allowedOrigins)
    ensures forall i :: 0 <= i < |origins| ==> origins[i] != []
  {
    var pieces := Split(allowedOrigins);
    origins := [];
    for i := 0 to |pieces|
      invariant origins == KeptOrigins(pieces[..i])
    {
      var o := Trim(pieces[i]);
      if o != [] {
        origins := origins + [o];
      }
      assert pieces[..i + 1][..i] == pieces[..i];
    }
    assert pieces[..|pieces|] == pieces;
  }
}
