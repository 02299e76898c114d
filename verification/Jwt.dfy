/** Access tokens as signed JWTs: issuing them, verifying them, and what an accepted token proves. */
module Jwt {
  import opened Text
  import opened Wrappers

  type Bytes = seq<bv8>

  datatype Json = JNull | JBool(b: bool) | JNum(n: nat) | JStr(s: string)
    | JArr(items: seq<Json>) | JObj(fields: map<string, Json>)

  /** Base64url, JSON text and RS256, of which only the laws below are used. */
  datatype Crypto = Crypto(
    encode: Bytes -> string, decode: string -> Option<Bytes>,
    render: Json -> Bytes, parse: Bytes -> Option<Json>,
    sign: string -> Bytes, verify: (string, Bytes) -> bool)

  ghost predicate IsLawful(c: Crypto) {
    (forall b :: c.decode(c.encode(b)) == Some(b) && '.' !in c.encode(b))
    && (forall j :: c.parse(c.render(j)) == Some(j))
    && (forall m :: c.verify(m, c.sign(m)))
  }

  // ----- issuing -----

  const SIGNING_ALG := "RS256"
  const SIGNING_KID := "camarasim-rs256-1"
  const EXPIRES_IN := 3600

  datatype AccessClaims = AccessClaims(
    iss: string, sub: string, aud: string, clientId: string, scope: string, jti: string, iat: nat)

  function ClaimsJson(a: AccessClaims): Json {
    JObj(map["iss" := JStr(a.iss), "sub" := JStr(a.sub), "aud" := JStr(a.aud), "client_id" := JStr(a.clientId),
             "scope" := JStr(a.scope), "jti" := JStr(a.jti), "iat" := JNum(a.iat), "exp" := JNum(a.iat + EXPIRES_IN)])
  }

  const HEADER: Json := JObj(map["alg" := JStr(SIGNING_ALG), "typ" := JStr("at+jwt"), "kid" := JStr(SIGNING_KID)])

  function SigningInput(c: Crypto, claims: Json): string {
    c.encode(c.render(HEADER)) + ['.'] + c.encode(c.render(claims))
  }

  function EncodeJwt(c: Crypto, claims: Json): string {
    SigningInput(c, claims) + ['.'] + c.encode(c.sign(SigningInput(c, claims)))
  }

  // ----- verifying -----

  datatype AuthError = Malformed | WrongType | BadSignature | Expired | NotYetValid | WrongAudience | WrongIssuer

  function Field(j: Json, name: string): Option<Json> {
    if j.JObj? && name in j.fields then Some(j.fields[name]) else None
  }

  function StringField(j: Json, name: string): Option<string> {
    var f := Field(j, name);
    if f.Some? && f.value.JStr? then Some(f.value.s) else None
  }

  function NumberField(j: Json, name: string): Option<nat> {
    var f := Field(j, name);
    if f.Some? && f.value.JNum? then Some(f.value.n) else None
  }

  function Strings(items: seq<Json>): seq<string> {
    if items == [] then []
    else (if items[0].JStr? then [items[0].s] else []) + Strings(items[1..])
  }

  /** `aud` is one string or an array of them. */
  function Audiences(claims: Json): seq<string> {
    var aud := Field(claims, "aud");
    if aud.Some? && aud.value.JStr? then [aud.value.s]
    else if aud.Some? && aud.value.JArr? then Strings(aud.value.items)
    else []
  }

  function ScopeOf(claims: Json): string {
    var scope := StringField(claims, "scope");
    if scope.Some? then scope.value else ""
  }

  predicate EqIgnoreCase(a: string, b: string) {
    ToAsciiLowercase(a) == ToAsciiLowercase(b)
  }

  /** `at+jwt`, bare or under `application/`, in any case. */
  predicate IsAtJwtTyp(typ: string) {
    var i := IndexOf(typ, '/');
    if i < |typ| then EqIgnoreCase(typ[..i], "application") && EqIgnoreCase(typ[i + 1..], "at+jwt")
    else EqIgnoreCase(typ, "at+jwt")
  }

  function DecodeSegment(c: Crypto, segment: string): Option<Json> {
    var bytes := c.decode(segment);
    if bytes.Some? then c.parse(bytes.value) else None
  }

  function CheckClaims(claims: Json, issuer: string, audience: string, now: nat): Result<Json, AuthError> {
    var exp, nbf := NumberField(claims, "exp"), NumberField(claims, "nbf");
    if exp.None? then Err(Malformed)
    else if now >= exp.value then Err(Expired)
    else if nbf.Some? && now < nbf.value then Err(NotYetValid)
    else if audience !in Audiences(claims) then Err(WrongAudience)
    else if StringField(claims, "iss") != Some(issuer) then Err(WrongIssuer)
    else Ok(claims)
  }

  /** The checks in the order the middleware makes them. */
  function VerifyToken(c: Crypto, token: string, issuer: string, audience: string, now: nat): Result<Json, AuthError> {
    var parts := Split(token, '.');
    if |parts| != 3 then Err(Malformed)
    else
      var header := DecodeSegment(c, parts[0]);
      if header.None? || StringField(header.value, "alg") != Some(SIGNING_ALG) then Err(Malformed)
      else
        var typ := StringField(header.value, "typ");
        if typ.None? || !IsAtJwtTyp(typ.value) then Err(WrongType)
        else
          var signature := c.decode(parts[2]);
          if signature.None? then Err(Malformed)
          else if !c.verify(parts[0] + ['.'] + parts[1], signature.value) then Err(BadSignature)
          else
            var claims := DecodeSegment(c, parts[1]);
            if claims.None? then Err(Malformed) else CheckClaims(claims.value, issuer, audience, now)
  }

  // ----- issue, then verify -----

  lemma SegmentsOfJwt(c: Crypto, claims: Json)
    requires IsLawful(c)
    ensures Split(EncodeJwt(c, claims), '.')
         == [c.encode(c.render(HEADER)), c.encode(c.render(claims)), c.encode(c.sign(SigningInput(c, claims)))]
  {
    var p := [c.encode(c.render(HEADER)), c.encode(c.render(claims)), c.encode(c.sign(SigningInput(c, claims)))];
    assert p[1..][1..] == [p[2]] && Join([p[2]], '.') == p[2];
    assert Join(p[1..], '.') == p[1] + ['.'] + p[2];
    assert Join(p, '.') == p[0] + ['.'] + (p[1] + ['.'] + p[2]);
    assert EncodeJwt(c, claims) == Join(p, '.');
    JoinThenSplit(p, '.');
  }

  lemma HeaderIsAccepted()
    ensures StringField(HEADER, "alg") == Some(SIGNING_ALG)
    ensures StringField(HEADER, "typ") == Some("at+jwt") && IsAtJwtTyp("at+jwt")
  {
    assert '/' !in "at+jwt";
  }

  /** The claims checks applied to claims the server stamped. */
  lemma CheckOfIssued(a: AccessClaims, issuer: string, audience: string, now: nat)
    ensures CheckClaims(ClaimsJson(a), issuer, audience, now)
         == if now >= a.iat + 3600 then Err(Expired)
            else if audience != a.aud then Err(WrongAudience)
            else if issuer != a.iss then Err(WrongIssuer)
            else Ok(ClaimsJson(a))
  {
    var claims := ClaimsJson(a);
    assert NumberField(claims, "exp") == Some(a.iat + EXPIRES_IN) && NumberField(claims, "nbf") == None;
    assert Audiences(claims) == [a.aud] && StringField(claims, "iss") == Some(a.iss);
  }

  /**
   A token the server issued is accepted exactly while it is unexpired and at the audience and issuer
   it names; otherwise the refusal says which of these failed first.
   */
  lemma IssueThenVerify(c: Crypto, a: AccessClaims, issuer: string, audience: string, now: nat)
    requires IsLawful(c)
    ensures VerifyToken(c, EncodeJwt(c, ClaimsJson(a)), issuer, audience, now)
         == if now >= a.iat + 3600 then Err(Expired)
            else if audience != a.aud then Err(WrongAudience)
            else if issuer != a.iss then Err(WrongIssuer)
            else Ok(ClaimsJson(a))
  {
    var claims := ClaimsJson(a);
    SegmentsOfJwt(c, claims);
    HeaderIsAccepted();
    CheckOfIssued(a, issuer, audience, now);
    hide Split, IsAtJwtTyp, ClaimsJson, CheckClaims, StringField;
    assert DecodeSegment(c, c.encode(c.render(HEADER))) == Some(HEADER);
    assert DecodeSegment(c, c.encode(c.render(claims))) == Some(claims);
  }

  // ----- what acceptance proves -----

  lemma SameSigningInput(c: Crypto, h: string, body: string, claims: Json)
    requires IsLawful(c) && '.' !in h && '.' !in body && h + ['.'] + body == SigningInput(c, claims)
    ensures body == c.encode(c.render(claims))
  {
    var h' := c.encode(c.render(HEADER));
    FirstIndex(h, '.', body);
    FirstIndex(h', '.', c.encode(c.render(claims)));
    var m := h + ['.'] + body;
    assert m[|h| + 1..] == body && m[|h'| + 1..] == c.encode(c.render(claims));
  }

  /** The signature of this token does not verify unless its signed text is one the server signed. */
  ghost predicate IsUnforged(c: Crypto, issued: set<AccessClaims>, token: string) {
    var parts := Split(token, '.');
    |parts| == 3 && c.decode(parts[2]).Some? && c.verify(parts[0] + ['.'] + parts[1], c.decode(parts[2]).value) ==>
      exists a :: a in issued && parts[0] + ['.'] + parts[1] == SigningInput(c, ClaimsJson(a))
  }

  /**
   An unforged token that is accepted carries exactly the claims of a token the server issued, still
   valid, for this audience and issuer.
   */
  lemma AcceptedWasIssued(
      c: Crypto, issued: set<AccessClaims>, token: string, issuer: string, audience: string, now: nat)
    requires IsLawful(c) && IsUnforged(c, issued, token)
    requires VerifyToken(c, token, issuer, audience, now).Ok?
    ensures exists a ::
      && a in issued && VerifyToken(c, token, issuer, audience, now).value == ClaimsJson(a)
      && a.iss == issuer && a.aud == audience && now < a.iat + 3600
  {
    var parts := Split(token, '.');
    SplitThenJoin(token, '.');
    assert c.verify(parts[0] + ['.'] + parts[1], c.decode(parts[2]).value);
    hide Split, IsAtJwtTyp;
    var a :| a in issued && parts[0] + ['.'] + parts[1] == SigningInput(c, ClaimsJson(a));
    SameSigningInput(c, parts[0], parts[1], ClaimsJson(a));
    assert DecodeSegment(c, parts[1]) == Some(ClaimsJson(a));
    CheckOfIssued(a, issuer, audience, now);
  }

  /** Tokens the server issued are never taken for forged. */
  lemma IssuedIsUnforged(c: Crypto, issued: set<AccessClaims>, a: AccessClaims)
    requires IsLawful(c) && a in issued
    ensures IsUnforged(c, issued, EncodeJwt(c, ClaimsJson(a)))
  {
    SegmentsOfJwt(c, ClaimsJson(a));
    hide Split, ClaimsJson;
  }

  // ----- exactly which tokens are accepted -----

  predicate HasField(j: Json, name: string, value: Json) {
    j.JObj? && name in j.fields && j.fields[name] == value
  }

  predicate IsSegmented(token: string, h: string, b: string, g: string) {
    token == h + ['.'] + b + ['.'] + g && '.' !in h && '.' !in b && '.' !in g
  }

  /** A header of an RS256 access token, its type bare or under `application/`, in any case. */
  ghost predicate IsAccessHeader(header: Json) {
    HasField(header, "alg", JStr("RS256"))
    && exists typ :: HasField(header, "typ", JStr(typ))
                     && (ToAsciiLowercase(typ) == "at+jwt" || ToAsciiLowercase(typ) == "application/at+jwt")
  }

  /** Unexpired, not before its time, for this audience (alone or among others), from this issuer. */
  ghost predicate AreValidClaims(claims: Json, issuer: string, audience: string, now: nat) {
    (exists exp: nat :: HasField(claims, "exp", JNum(exp)) && now < exp)
    && (forall nbf: nat :: HasField(claims, "nbf", JNum(nbf)) ==> nbf <= now)
    && (HasField(claims, "aud", JStr(audience))
        || exists items :: HasField(claims, "aud", JArr(items)) && JStr(audience) in items)
    && HasField(claims, "iss", JStr(issuer))
  }

  ghost predicate IsSigned(c: Crypto, h: string, b: string, g: string) {
    exists signature :: c.decode(g) == Some(signature) && c.verify(h + ['.'] + b, signature)
  }

  ghost predicate IsAccepted(
      c: Crypto, h: string, b: string, g: string, issuer: string, audience: string, now: nat, claims: Json)
  {
    (exists header :: DecodeSegment(c, h) == Some(header) && IsAccessHeader(header))
    && IsSigned(c, h, b, g)
    && DecodeSegment(c, b) == Some(claims) && AreValidClaims(claims, issuer, audience, now)
  }

  lemma TypIsChecked(typ: string)
    ensures IsAtJwtTyp(typ) <==> ToAsciiLowercase(typ) == "at+jwt" || ToAsciiLowercase(typ) == "application/at+jwt"
  {
    var lower, i := ToAsciiLowercase(typ), IndexOf(typ, '/');
    assert forall k :: 0 <= k < |typ| ==> (typ[k] == '/' <==> lower[k] == '/');
    LowerWords();
    if i < |typ| {
      assert lower == ToAsciiLowercase(typ[..i]) + "/" + ToAsciiLowercase(typ[i + 1..]);
      hide IndexOf, ToAsciiLowercase;
      if lower == "application/at+jwt" {
        SlashOf(i);
        assert lower[..i] == ToAsciiLowercase(typ[..i]) && lower[i + 1..] == ToAsciiLowercase(typ[i + 1..]);
      }
    } else if lower == "application/at+jwt" {
      SlashOf(11);
      assert false;
    }
  }

  lemma LowerWords()
    ensures ToAsciiLowercase("at+jwt") == "at+jwt" && ToAsciiLowercase("application") == "application"
  {
  }

  lemma SlashOf(i: int)
    requires 0 <= i < |"application/at+jwt"|
    ensures "application/at+jwt"[i] == '/' <==> i == 11
    ensures "application/at+jwt"[..11] == "application" && "application/at+jwt"[12..] == "at+jwt"
  {
  }

  lemma {:induction false} StringsAreItems(items: seq<Json>, s: string)
    ensures s in Strings(items) <==> JStr(s) in items
  {
    if items != [] {
      StringsAreItems(items[1..], s);
      assert items == [items[0]] + items[1..];
    }
  }

  lemma ClaimsAreChecked(claims: Json, issuer: string, audience: string, now: nat)
    ensures CheckClaims(claims, issuer, audience, now).Ok? <==> AreValidClaims(claims, issuer, audience, now)
  {
    var aud := Field(claims, "aud");
    if aud.Some? && aud.value.JArr? {
      StringsAreItems(aud.value.items, audience);
    }
    hide Strings;
  }

  lemma HeaderIsChecked(header: Json)
    ensures IsAccessHeader(header)
       <==> StringField(header, "alg") == Some("RS256") && StringField(header, "typ").Some?
            && IsAtJwtTyp(StringField(header, "typ").value)
  {
    var typ := StringField(header, "typ");
    if typ.Some? {
      TypIsChecked(typ.value);
    }
    hide IsAtJwtTyp, ToAsciiLowercase;
  }

  /** The verifier accepts a token, with these claims, if and only if every one of the checks holds. */
  lemma AcceptedIff(c: Crypto, token: string, issuer: string, audience: string, now: nat, claims: Json)
    ensures VerifyToken(c, token, issuer, audience, now) == Ok(claims)
       <==> exists h, b, g :: IsSegmented(token, h, b, g) && IsAccepted(c, h, b, g, issuer, audience, now, claims)
  {
    var parts := Split(token, '.');
    hide Split, IsAccessHeader, AreValidClaims, IsAtJwtTyp, StringField, CheckClaims, IsSegmented;
    if |parts| == 3 {
      ThreeSegments(token);
      SegmentsAccepted(c, token, issuer, audience, now, claims);
    }
    forall h, b, g | IsSegmented(token, h, b, g) ensures parts == [h, b, g] {
      SegmentsSplit(token, h, b, g);
    }
  }

  lemma ThreeSegments(token: string)
    requires |Split(token, '.')| == 3
    ensures var p := Split(token, '.'); IsSegmented(token, p[0], p[1], p[2])
  {
    SplitThenJoin(token, '.');
    var p := Split(token, '.');
    hide Split;
    assert p[1..][1..] == [p[2]] && Join([p[2]], '.') == p[2];
    assert Join(p[1..], '.') == p[1] + ['.'] + p[2];
    assert Join(p, '.') == p[0] + ['.'] + (p[1] + ['.'] + p[2]);
  }

  lemma SegmentsSplit(token: string, h: string, b: string, g: string)
    requires IsSegmented(token, h, b, g)
    ensures Split(token, '.') == [h, b, g]
  {
    var p := [h, b, g];
    assert p[1..][1..] == [g] && Join([g], '.') == g;
    assert Join(p[1..], '.') == b + ['.'] + g;
    assert Join(p, '.') == h + ['.'] + (b + ['.'] + g);
    assert Join(p, '.') == token;
    JoinThenSplit(p, '.');
  }

  lemma SegmentsAccepted(c: Crypto, token: string, issuer: string, audience: string, now: nat, claims: Json)
    requires |Split(token, '.')| == 3
    ensures var p := Split(token, '.');
      VerifyToken(c, token, issuer, audience, now) == Ok(claims)
      <==> IsAccepted(c, p[0], p[1], p[2], issuer, audience, now, claims)
  {
    var p := Split(token, '.');
    var header, body := DecodeSegment(c, p[0]), DecodeSegment(c, p[1]);
    if header.Some? {
      HeaderIsChecked(header.value);
    }
    if body.Some? {
      ClaimsAreChecked(body.value, issuer, audience, now);
      CheckedClaimsAreReturned(body.value, issuer, audience, now);
    }
    hide Split, IsAccessHeader, AreValidClaims, IsAtJwtTyp, StringField, CheckClaims, DecodeSegment;
  }

  lemma CheckedClaimsAreReturned(claims: Json, issuer: string, audience: string, now: nat)
    ensures var r := CheckClaims(claims, issuer, audience, now); r.Ok? ==> r.value == claims
  {
  }
}
