/**
 What the authorization server answers, told from the requests it was sent and not from how it
 computes the answer.
 */
module AuthAnswers {
  import opened AuthGuarantees
  import opened AuthServer
  import opened Jwt
  import opened PurposeScopes
  import opened Text
  import opened Wrappers

  // ----- what a request says -----

  /** The client a request identifies: Basic header first, then form field, then assertion. */
  predicate Presents(auth: ClientAuth, clientId: string) {
    auth.basic == Some(clientId)
    || (auth.basic.None? && auth.form == Some(clientId))
    || (auth.basic.None? && auth.form.None? && auth.assertion == Some(clientId))
  }

  predicate IsAnonymous(auth: ClientAuth) {
    auth.basic.None? && auth.form.None? && auth.assertion.None?
  }

  predicate IsGiven(value: Option<string>) {
    value.Some? && value.value != ""
  }

  /** Every token of the scope that claims to be a purpose is in the purpose grammar. */
  ghost predicate IsWellFormedScope(scope: string) {
    forall needed :: needed in Split(scope, ' ') && StartsWith(needed, "dpv:") ==> InGrammar(needed)
  }

  predicate IsBlank(value: Option<string>) {
    value.None? || forall i :: 0 <= i < |value.value| ==> value.value[i] in WHITESPACE
  }

  /** The 25 characters of the Unicode property White_Space. */
  const WHITESPACE: string :=
    "\t\n\U{000b}\U{000c}\r \U{0085}\U{00a0}\U{1680}\U{2000}\U{2001}\U{2002}\U{2003}\U{2004}\U{2005}\U{2006}"
    + "\U{2007}\U{2008}\U{2009}\U{200a}\U{2028}\U{2029}\U{202f}\U{205f}\U{3000}"

  predicate IsSplitUri(uri: string, scheme: string, rest: string) {
    uri == scheme + "://" + rest && scheme != "" && rest != ""
    && forall i :: 0 <= i < |scheme| ==>
         '0' <= scheme[i] <= '9' || 'a' <= scheme[i] <= 'z' || 'A' <= scheme[i] <= 'Z' || scheme[i] in "+-."
  }

  ghost predicate IsAbsolute(uri: string) {
    exists scheme, rest :: IsSplitUri(uri, scheme, rest)
  }

  // ----- how the server reads them -----

  lemma PresentedClient(auth: ClientAuth)
    ensures ClientId(auth).None? <==> IsAnonymous(auth)
    ensures forall c :: ClientId(auth) == Some(c) <==> Presents(auth, c)
  {
  }

  lemma ScopeIsChecked(scope: string)
    ensures ValidateScope(scope).None? <==> IsWellFormedScope(scope)
  {
    hide Split, IsValidToken, InGrammar;
    var tokens := Split(scope, ' ');
    RefusalNamesLeftmost(tokens);
    forall token | token in tokens ensures IsAcceptable(token) <==> (StartsWith(token, "dpv:") ==> InGrammar(token)) {
      CheckDecidesGrammar(token);
    }
  }

  lemma BlankIsChecked(value: Option<string>)
    ensures NonBlank(value).None? <==> IsBlank(value)
    ensures NonBlank(value).Some? ==> NonBlank(value) == value
  {
    if value.Some? {
      forall c ensures IsWhitespace(c) <==> c in WHITESPACE {
        WhitespaceListed(c);
      }
      hide IsWhitespace;
    }
  }

  lemma WhitespaceListed(c: char)
    ensures IsWhitespace(c) <==> c in WHITESPACE
  {
    var w := WHITESPACE;
    assert |w| == 25;
    if IsWhitespace(c) {
      var i := if '\t' <= c <= '\r' then c as int - 9
               else if '\U{2000}' <= c <= '\U{200a}' then 9 + (c as int - 0x2000)
               else if c == ' ' then 5 else if c == '\U{0085}' then 6 else if c == '\U{00a0}' then 7
               else if c == '\U{1680}' then 8 else if c == '\U{2028}' then 20 else if c == '\U{2029}' then 21
               else if c == '\U{202f}' then 22 else if c == '\U{205f}' then 23 else 24;
      assert w[i] == c;
    }
  }

  lemma AbsoluteIsChecked(uri: string)
    ensures IsAbsoluteUri(uri) <==> IsAbsolute(uri)
  {
    var i := SchemeEnd(uri);
    SchemeEndFound(uri);
    if IsAbsoluteUri(uri) {
      assert IsSplitUri(uri, uri[..i], uri[i + 3..]);
    }
    if IsAbsolute(uri) {
      var scheme, rest :| IsSplitUri(uri, scheme, rest);
      SchemeEndOf(scheme, rest);
    }
    hide SchemeEnd;
  }

  lemma {:induction false} SchemeEndFound(s: string)
    ensures var i := SchemeEnd(s);
      i < |s| ==> i + 3 <= |s| && s == s[..i] + "://" + s[i + 3..]
  {
    if s != [] && !StartsWith(s, "://") {
      SchemeEndFound(s[1..]);
      var i := SchemeEnd(s[1..]);
      if i < |s[1..]| {
        assert s[1..] == s[1..][..i] + "://" + s[1..][i + 3..];
        assert s[i + 1..] == s[1..][i..];
      }
    }
  }

  lemma {:induction false} SchemeEndOf(scheme: string, rest: string)
    requires forall i :: 0 <= i < |scheme| ==> scheme[i] != ':'
    ensures SchemeEnd(scheme + "://" + rest) == |scheme|
  {
    var s := scheme + "://" + rest;
    if scheme != [] {
      assert s[0] == scheme[0] != ':';
      assert s[1..] == scheme[1..] + "://" + rest;
      SchemeEndOf(scheme[1..], rest);
    }
  }

  // ----- the two endpoints that open something -----

  /** Exactly which authorization requests are granted a code, and how every other one is refused. */
  lemma AuthorizeAnswer(env: Env, s: Server, req: Request)
    requires req.Authorize?
    ensures var (s', reply) := Serve(env, s, req);
      if IsBlank(req.clientId) || IsBlank(req.redirectUri) || !IsAbsolute(req.redirectUri.value) then
        s' == s && reply == Refused(InvalidRequest)
      else if req.responseType != Some("code") then s' == s && reply == Redirected(UnsupportedResponseType)
      else if IsBlank(req.challenge) || req.challengeMethod != Some("S256") then
        s' == s && reply == Redirected(InvalidRequest)
      else if req.scope.Some? && !IsWellFormedScope(req.scope.value) then s' == s && reply == Redirected(InvalidScope)
      else reply.CodeGranted?
  {
    BlankIsChecked(req.clientId);
    BlankIsChecked(req.redirectUri);
    BlankIsChecked(req.challenge);
    if req.redirectUri.Some? {
      AbsoluteIsChecked(req.redirectUri.value);
    }
    if req.scope.Some? {
      ScopeIsChecked(req.scope.value);
    }
    hide IsBlank, NonBlank, IsAbsolute, IsAbsoluteUri, ValidateScope, IsWellFormedScope;
  }

  /** Exactly which backchannel requests are opened, and how every other one is refused. */
  lemma BcAuthorizeAnswer(env: Env, s: Server, req: Request)
    requires req.BcAuthorize?
    ensures var (s', reply) := Serve(env, s, req);
      if IsAnonymous(req.auth) then s' == s && reply == Refused(InvalidClient)
      else if !IsGiven(req.loginHint) || !IsGiven(req.scope) then s' == s && reply == Refused(InvalidRequest)
      else if !IsWellFormedScope(req.scope.value) then s' == s && reply == Refused(InvalidScope)
      else reply.RequestOpened?
  {
    PresentedClient(req.auth);
    if req.scope.Some? {
      ScopeIsChecked(req.scope.value);
    }
    hide ClientId, ValidateScope, IsWellFormedScope, DecisionFor;
  }

  // ----- the token endpoint, before it looks at a store -----

  /** Every field of the claims of a granted token. */
  predicate Grants(reply: Reply, iss: string, sub: string, aud: string, clientId: string, scope: string, iat: nat) {
    reply.TokenGranted? && reply.claims.iss == iss && reply.claims.sub == sub && reply.claims.aud == aud
    && reply.claims.clientId == clientId && reply.claims.scope == scope && reply.claims.iat == iat
  }

  /** A client's own token: exactly when it is granted, and with which claims. */
  lemma ClientCredentialsAnswer(env: Env, s: Server, req: Request)
    requires req.TokenRequest? && req.grantType == Some("client_credentials")
    ensures var (s', reply) := Serve(env, s, req);
      var scope := if req.scope.Some? then req.scope.value else "";
      s'.codes == s.codes && s'.requests == s.requests
      && if IsAnonymous(req.auth) then s' == s && reply == Refused(InvalidClient)
         else if !IsWellFormedScope(scope) then s' == s && reply == Refused(InvalidScope)
         else exists c :: Presents(req.auth, c) && Grants(reply, req.base, c, req.base, c, scope, req.issuedAt)
  {
    var scope := if req.scope.Some? then req.scope.value else "";
    PresentedClient(req.auth);
    ScopeIsChecked(scope);
    hide ClientId, ValidateScope, IsWellFormedScope, Presents, IsAnonymous;
    if !IsAnonymous(req.auth) {
      assert Presents(req.auth, ClientId(req.auth).value);
    }
  }

  /** What is refused for what it lacks: the stores are not consulted and do not change. */
  lemma IncompleteRequests(env: Env, s: Server, req: Request)
    requires req.TokenRequest?
    ensures var (s', reply) := Serve(env, s, req);
      (req.grantType.None? ==> s' == s && reply == Refused(InvalidRequest))
      && (req.grantType.Some? && req.grantType.value != "client_credentials"
          && req.grantType.value != "authorization_code"
          && req.grantType.value != "urn:openid:params:grant-type:ciba" ==>
            s' == s && reply == Refused(UnsupportedGrantType))
      && (req.grantType == Some("authorization_code") ==>
            (if !IsGiven(req.code) then s' == s && reply == Refused(InvalidRequest)
             else if IsAnonymous(req.auth) then s' == s && reply == Refused(InvalidClient)
             else if !IsGiven(req.verifier) || !IsGiven(req.redirectUri) then
               s' == s && reply == Refused(InvalidRequest)
             else true))
      && (req.grantType == Some("urn:openid:params:grant-type:ciba") ==>
            (if IsAnonymous(req.auth) then s' == s && reply == Refused(InvalidClient)
             else if !IsGiven(req.authReqId) then s' == s && reply == Refused(InvalidRequest)
             else true))
  {
    hide ServeClientCredentials, IssueToken, PollRequests;
  }

  // ----- redeeming a code -----

  /** Request `k` of the run was granted `code`. */
  predicate IsGrantedCode(env: Env, reqs: seq<Request>, k: nat, code: string) {
    k < |reqs| && reqs[k].Authorize? && Serve(env, Run(env, reqs[..k]), reqs[k]).1 == CodeGranted(code)
  }

  /** A complete redemption of `code` by `clientId`. */
  predicate Redeems(req: Request, code: string, clientId: string) {
    req.TokenRequest? && req.grantType == Some("authorization_code") && req.code == Some(code) && code != ""
    && Presents(req.auth, clientId) && IsGiven(req.verifier) && IsGiven(req.redirectUri)
  }

  ghost predicate IsRedemptionOf(req: Request, code: string) {
    exists c :: Redeems(req, code, c)
  }

  ghost predicate IsRedeemed(reqs: seq<Request>, k: nat, code: string) {
    exists m :: k < m < |reqs| && IsRedemptionOf(reqs[m], code)
  }

  /** The store entry an authorization request asks for. */
  predicate IsEntryFor(entry: AuthCode, req: Request)
    requires req.Authorize?
  {
    Some(entry.clientId) == req.clientId && Some(entry.redirectUri) == req.redirectUri
    && entry.scope == (if req.scope.Some? then req.scope.value else "")
    && Some(entry.challenge) == req.challenge && entry.audience == req.base && entry.expiresAt == req.now + 600
  }

  lemma GrantStoresEntry(env: Env, s: Server, req: Request, code: string)
    requires AuthServer.IsLawful(env) && req.Authorize? && Serve(env, s, req).1 == CodeGranted(code)
    ensures var s' := Serve(env, s, req).0;
      code in s'.codes && IsEntryFor(s'.codes[code], req) && IsMinted(env.mintCode, s'.nextCode, code)
  {
    hide ValidateScope, IsAbsoluteUri;
  }

  /** A request leaves a stored code alone, unless it redeems it. */
  lemma CodeStays(env: Env, s: Server, req: Request, code: string)
    requires AuthServer.IsLawful(env) && IsMinted(env.mintCode, s.nextCode, code)
    ensures var s' := Serve(env, s, req).0;
      IsMinted(env.mintCode, s'.nextCode, code)
      && (code in s'.codes <==> code in s.codes && !IsRedemptionOf(req, code))
      && (code in s'.codes ==> s'.codes[code] == s.codes[code])
  {
    MintIsNew(env.mintCode, s.nextCode);
    hide IsMinted, ValidateScope, AuthorizeRefusal, RedemptionMatches, DecisionFor;
    if req.TokenRequest? {
      PresentedClient(req.auth);
      if req.grantType == Some("authorization_code") && req.code == Some(code) && RedemptionRefusal(req).None? {
        assert Redeems(req, code, ClientId(req.auth).value);
      }
    }
  }

  lemma {:induction false} CodeIsStored(env: Env, reqs: seq<Request>, k: nat, code: string)
    requires AuthServer.IsLawful(env) && IsGrantedCode(env, reqs, k, code)
    ensures var s := Run(env, reqs);
      IsMinted(env.mintCode, s.nextCode, code)
      && (code in s.codes <==> !IsRedeemed(reqs, k, code)) && (code in s.codes ==> IsEntryFor(s.codes[code], reqs[k]))
  {
    var front, last := reqs[..|reqs| - 1], reqs[|reqs| - 1];
    assert Run(env, reqs) == Serve(env, Run(env, front), last).0;
    if k == |front| {
      hide Run, Serve, IsMinted;
      GrantStoresEntry(env, Run(env, front), last, code);
    } else {
      assert front[..k] == reqs[..k];
      hide Run, Serve, IsMinted, IsEntryFor, IsRedeemed, IsRedemptionOf;
      CodeIsStored(env, front, k, code);
      CodeStays(env, Run(env, front), last, code);
      RedeemedByNow(reqs, k, code);
    }
  }

  lemma RedeemedByNow(reqs: seq<Request>, k: nat, code: string)
    requires k < |reqs| - 1
    ensures IsRedeemed(reqs, k, code)
       <==> IsRedeemed(reqs[..|reqs| - 1], k, code) || IsRedemptionOf(reqs[|reqs| - 1], code)
  {
    hide IsRedemptionOf;
    var front := reqs[..|reqs| - 1];
    assert forall m :: 0 <= m < |front| ==> front[m] == reqs[m];
  }

  /** What the stored code alone decides. */
  lemma RedemptionOfStore(env: Env, s: Server, code: string, redeem: Request, clientId: string)
    requires AuthServer.IsLawful(env) && Redeems(redeem, code, clientId)
    ensures var reply := Serve(env, s, redeem).1;
      if code in s.codes && redeem.now < s.codes[code].expiresAt && redeem.redirectUri == Some(s.codes[code].redirectUri)
         && s.codes[code].clientId == clientId && env.s256(redeem.verifier.value) == s.codes[code].challenge
      then Grants(reply, redeem.base, "camarasim-user", s.codes[code].audience, clientId,
                  s.codes[code].scope, redeem.issuedAt)
      else reply == Refused(InvalidGrant)
  {
    PresentedClient(redeem.auth);
    hide Presents, ClientId, HexDigits;
  }

  /**
   The answer to every complete redemption at any point of any run, from the authorization request
   that was granted the code and the requests since: the first redemption gets a token if and only if
   client, redirect URI and verifier are that request's and 600 seconds have not passed.
   */
  lemma RedemptionAnswer(env: Env, reqs: seq<Request>, k: nat, code: string, redeem: Request, clientId: string)
    requires AuthServer.IsLawful(env) && IsGrantedCode(env, reqs, k, code) && Redeems(redeem, code, clientId)
    ensures var (o, reply) := (reqs[k], Serve(env, Run(env, reqs), redeem).1);
      if !IsRedeemed(reqs, k, code) && o.clientId == Some(clientId) && o.redirectUri == redeem.redirectUri
         && o.challenge == Some(env.s256(redeem.verifier.value)) && redeem.now < o.now + 600
      then Grants(reply, redeem.base, "camarasim-user", o.base, clientId,
                  if o.scope.Some? then o.scope.value else "", redeem.issuedAt)
      else reply == Refused(InvalidGrant)
  {
    CodeIsStored(env, reqs, k, code);
    RedemptionOfStore(env, Run(env, reqs), code, redeem, clientId);
    hide Run, Serve, IsRedeemed, IsMinted, Presents, Grants;
  }

  // ----- polling a backchannel request -----

  /** Request `k` of the run was answered with `id`. */
  predicate IsOpenedRequest(env: Env, reqs: seq<Request>, k: nat, id: string) {
    k < |reqs| && reqs[k].BcAuthorize? && Serve(env, Run(env, reqs[..k]), reqs[k]).1 == RequestOpened(id)
  }

  predicate Polls(req: Request, id: string, clientId: string) {
    req.TokenRequest? && req.grantType == Some("urn:openid:params:grant-type:ciba")
    && req.authReqId == Some(id) && id != "" && Presents(req.auth, clientId)
  }

  predicate IsDenied(o: Request)
    requires o.BcAuthorize? && o.loginHint.Some?
  {
    Spells(o.loginHint.value, "denied", "DENIED")
  }

  predicate IsPending(o: Request)
    requires o.BcAuthorize? && o.loginHint.Some?
  {
    !IsDenied(o) && Spells(o.loginHint.value, "pending", "PENDING")
  }

  /** `req` is the owner's poll that is answered with a token, or comes too late: both end the request `o`. */
  ghost predicate IsEndOf(o: Request, req: Request, id: string)
    requires o.BcAuthorize? && o.loginHint.Some?
  {
    exists c :: Polls(req, id, c) && Presents(o.auth, c) && (req.now >= o.now + 120 || (!IsDenied(o) && !IsPending(o)))
  }

  ghost predicate IsEnded(reqs: seq<Request>, k: nat, id: string)
    requires k < |reqs| && reqs[k].BcAuthorize? && reqs[k].loginHint.Some?
  {
    exists m :: k < m < |reqs| && IsEndOf(reqs[k], reqs[m], id)
  }

  predicate IsRequestFor(entry: CibaRequest, o: Request)
    requires o.BcAuthorize? && o.loginHint.Some?
  {
    Presents(o.auth, entry.clientId) && Some(entry.scope) == o.scope && entry.audience == o.base
    && entry.expiresAt == o.now + 120
    && entry.decision == (if IsDenied(o) then Decision.Denied else if IsPending(o) then Decision.Pending else Approved)
  }

  lemma OpeningStoresRequest(env: Env, s: Server, o: Request, id: string)
    requires AuthServer.IsLawful(env) && o.BcAuthorize? && Serve(env, s, o).1 == RequestOpened(id)
    ensures var s' := Serve(env, s, o).0;
      o.loginHint.Some? && id in s'.requests && IsRequestFor(s'.requests[id], o)
      && IsMinted(env.mintRequest, s'.nextRequest, id)
  {
    PresentedClient(o.auth);
    HintDecides(o.loginHint.value);
    hide ValidateScope, DecisionFor, ClientId, Presents, Spells;
  }

  /** A request leaves a stored backchannel request alone, unless it is the poll that ends it. */
  lemma RequestStays(env: Env, s: Server, o: Request, req: Request, id: string)
    requires AuthServer.IsLawful(env) && IsMinted(env.mintRequest, s.nextRequest, id)
    requires o.BcAuthorize? && o.loginHint.Some? && (id in s.requests ==> IsRequestFor(s.requests[id], o))
    ensures var s' := Serve(env, s, req).0;
      IsMinted(env.mintRequest, s'.nextRequest, id)
      && (id in s'.requests <==> id in s.requests && !IsEndOf(o, req, id))
      && (id in s'.requests ==> s'.requests[id] == s.requests[id])
  {
    MintIsNew(env.mintRequest, s.nextRequest);
    hide IsMinted, ValidateScope, AuthorizeRefusal, RedemptionMatches, DecisionFor, Spells;
    if req.TokenRequest? {
      PresentedClient(req.auth);
      PresentedClient(o.auth);
      hide Presents, ClientId;
      if req.grantType == Some(CIBA_GRANT) && NonEmpty(req.authReqId) == Some(id) && ClientId(req.auth).Some? {
        assert Polls(req, id, ClientId(req.auth).value);
      }
    }
  }

  lemma {:induction false} RequestIsStored(env: Env, reqs: seq<Request>, k: nat, id: string)
    requires AuthServer.IsLawful(env) && IsOpenedRequest(env, reqs, k, id)
    ensures var s := Run(env, reqs);
      reqs[k].loginHint.Some? && IsMinted(env.mintRequest, s.nextRequest, id)
      && (id in s.requests <==> !IsEnded(reqs, k, id)) && (id in s.requests ==> IsRequestFor(s.requests[id], reqs[k]))
  {
    var front, last := reqs[..|reqs| - 1], reqs[|reqs| - 1];
    assert Run(env, reqs) == Serve(env, Run(env, front), last).0;
    if k == |front| {
      hide Run, Serve, IsMinted, IsRequestFor;
      OpeningStoresRequest(env, Run(env, front), last, id);
    } else {
      assert front[..k] == reqs[..k];
      hide Run, Serve, IsMinted, IsRequestFor, IsEnded, IsEndOf;
      RequestIsStored(env, front, k, id);
      RequestStays(env, Run(env, front), reqs[k], last, id);
      EndedByNow(reqs, k, id);
    }
  }

  lemma EndedByNow(reqs: seq<Request>, k: nat, id: string)
    requires k < |reqs| - 1 && reqs[k].BcAuthorize? && reqs[k].loginHint.Some?
    ensures IsEnded(reqs, k, id)
       <==> IsEnded(reqs[..|reqs| - 1], k, id) || IsEndOf(reqs[k], reqs[|reqs| - 1], id)
  {
    hide IsEndOf;
    var front := reqs[..|reqs| - 1];
    assert forall m :: 0 <= m < |front| ==> front[m] == reqs[m];
  }

  /** What the stored request alone decides. */
  lemma PollOfStore(env: Env, s: Server, id: string, poll: Request, clientId: string)
    requires Polls(poll, id, clientId)
    ensures var reply := Serve(env, s, poll).1;
      if id !in s.requests || s.requests[id].clientId != clientId then reply == Refused(InvalidGrant)
      else
        var entry := s.requests[id];
        if poll.now >= entry.expiresAt then reply == Refused(ExpiredToken)
        else if entry.decision == Decision.Denied then reply == Refused(AccessDenied)
        else if entry.decision == Decision.Pending then reply == Refused(AuthorizationPending)
        else Grants(reply, poll.base, "camarasim-user", entry.audience, clientId, entry.scope, poll.issuedAt)
  {
    PresentedClient(poll.auth);
    hide Presents, ClientId, HexDigits;
  }

  lemma OnePresented(auth: ClientAuth, c: string, d: string)
    requires Presents(auth, c) && Presents(auth, d)
    ensures c == d
  {
  }

  /**
   The answer to every poll at any point of any run, from the backchannel request that was given the
   id and the requests since. The letters of its login hint decide: until it ends or expires its owner
   is denied, told to wait, or granted a token; anyone else, and anyone later, finds no such request.
   */
  lemma PollAnswer(env: Env, reqs: seq<Request>, k: nat, id: string, poll: Request, clientId: string)
    requires AuthServer.IsLawful(env) && IsOpenedRequest(env, reqs, k, id) && Polls(poll, id, clientId)
    ensures var (o, reply) := (reqs[k], Serve(env, Run(env, reqs), poll).1);
      o.loginHint.Some? && o.scope.Some?
      && if IsEnded(reqs, k, id) || !Presents(o.auth, clientId) then reply == Refused(InvalidGrant)
         else if poll.now >= o.now + 120 then reply == Refused(ExpiredToken)
         else if Spells(o.loginHint.value, "denied", "DENIED") then reply == Refused(AccessDenied)
         else if Spells(o.loginHint.value, "pending", "PENDING") then reply == Refused(AuthorizationPending)
         else Grants(reply, poll.base, "camarasim-user", o.base, clientId, o.scope.value, poll.issuedAt)
  {
    RequestIsStored(env, reqs, k, id);
    BcAuthorizeAnswer(env, Run(env, reqs[..k]), reqs[k]);
    var o, s := reqs[k], Run(env, reqs);
    PollOfStore(env, s, id, poll, clientId);
    hide Run, Serve, IsEnded, IsMinted, Presents, Polls, Spells, Grants, IsWellFormedScope;
    if id in s.requests && Presents(o.auth, clientId) {
      OnePresented(o.auth, s.requests[id].clientId, clientId);
    }
  }

  // ----- from the request to the accepted token -----

  /** What a verifier reads in accepted claims, field by field. */
  predicate Reads(claims: Json, iss: string, sub: string, aud: string, clientId: string, scope: string, iat: nat) {
    claims.JObj?
    && claims.fields.Keys == {"iss", "sub", "aud", "client_id", "scope", "jti", "iat", "exp"}
    && claims.fields["iss"] == JStr(iss) && claims.fields["sub"] == JStr(sub) && claims.fields["aud"] == JStr(aud)
    && claims.fields["client_id"] == JStr(clientId) && claims.fields["scope"] == JStr(scope)
    && claims.fields["iat"] == JNum(iat) && claims.fields["exp"] == JNum(iat + 3600)
  }

  lemma ClaimsReadBack(a: AccessClaims)
    ensures Reads(ClaimsJson(a), a.iss, a.sub, a.aud, a.clientId, a.scope, a.iat)
  {
    var fields := ClaimsJson(a).fields;
    assert fields["exp"] == JNum(a.iat + 3600) && fields["iat"] == JNum(a.iat) && fields["scope"] == JStr(a.scope);
    assert fields["client_id"] == JStr(a.clientId) && fields["aud"] == JStr(a.aud);
    assert fields["sub"] == JStr(a.sub) && fields["iss"] == JStr(a.iss);
  }

  lemma GrantReadsBack(
      c: Crypto, reply: Reply, iss: string, sub: string, aud: string, clientId: string, scope: string, iat: nat,
      now: nat)
    requires Jwt.IsLawful(c) && Grants(reply, iss, sub, aud, clientId, scope, iat)
    ensures var verdict := VerifyToken(c, EncodeJwt(c, ClaimsJson(reply.claims)), iss, aud, now);
      if now < iat + 3600 then verdict.Ok? && Reads(verdict.value, iss, sub, aud, clientId, scope, iat)
      else verdict == Err(Expired)
  {
    IssueThenVerify(c, reply.claims, iss, aud, now);
    ClaimsReadBack(reply.claims);
    hide VerifyToken, EncodeJwt, ClaimsJson, Reads, Jwt.IsLawful;
  }

  /**
   End to end: the token got by redeeming a code verifies at the server it was asked for, for an hour,
   and says there the client, scope and user that the two requests called for.
   */
  lemma RedeemedTokenReadsBack(
      c: Crypto, env: Env, reqs: seq<Request>, k: nat, code: string, redeem: Request, clientId: string, now: nat)
    requires AuthServer.IsLawful(env) && Jwt.IsLawful(c)
    requires IsGrantedCode(env, reqs, k, code) && Redeems(redeem, code, clientId)
    requires Serve(env, Run(env, reqs), redeem).1.TokenGranted?
    ensures var o := reqs[k];
      var token := EncodeJwt(c, ClaimsJson(Serve(env, Run(env, reqs), redeem).1.claims));
      var verdict := VerifyToken(c, token, redeem.base, o.base, now);
      if now < redeem.issuedAt + 3600 then
        verdict.Ok?
        && Reads(verdict.value, redeem.base, "camarasim-user", o.base, clientId,
                 if o.scope.Some? then o.scope.value else "", redeem.issuedAt)
      else verdict == Err(Expired)
  {
    RedemptionAnswer(env, reqs, k, code, redeem, clientId);
    var o := reqs[k];
    var reply := Serve(env, Run(env, reqs), redeem).1;
    hide Run, Serve, VerifyToken, EncodeJwt, IsRedeemed, Grants, ClaimsJson, IsGrantedCode, Redeems;
    GrantReadsBack(c, reply, redeem.base, "camarasim-user", o.base, clientId,
                   if o.scope.Some? then o.scope.value else "", redeem.issuedAt, now);
  }

  /** The same for the token got by polling. */
  lemma PolledTokenReadsBack(
      c: Crypto, env: Env, reqs: seq<Request>, k: nat, id: string, poll: Request, clientId: string, now: nat)
    requires AuthServer.IsLawful(env) && Jwt.IsLawful(c)
    requires IsOpenedRequest(env, reqs, k, id) && Polls(poll, id, clientId)
    requires Serve(env, Run(env, reqs), poll).1.TokenGranted?
    ensures var o := reqs[k];
      var token := EncodeJwt(c, ClaimsJson(Serve(env, Run(env, reqs), poll).1.claims));
      var verdict := VerifyToken(c, token, poll.base, o.base, now);
      o.scope.Some?
      && if now < poll.issuedAt + 3600 then
           verdict.Ok?
           && Reads(verdict.value, poll.base, "camarasim-user", o.base, clientId, o.scope.value, poll.issuedAt)
         else verdict == Err(Expired)
  {
    PollAnswer(env, reqs, k, id, poll, clientId);
    var o := reqs[k];
    var reply := Serve(env, Run(env, reqs), poll).1;
    hide Run, Serve, VerifyToken, EncodeJwt, IsEnded, Grants, ClaimsJson, IsOpenedRequest, Polls, Spells, Presents;
    GrantReadsBack(c, reply, poll.base, "camarasim-user", o.base, clientId, o.scope.value, poll.issuedAt, now);
  }
}
