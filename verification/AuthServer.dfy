/**
 The OAuth2 authorization server: authorization codes with PKCE, CIBA backchannel requests and the
 three grants of the token endpoint. `Serve` answers one request; the class answers it in place.
 */
module AuthServer {
  import opened Jwt
  import opened Pkce
  import opened PurposeScopes
  import opened Text
  import opened Wrappers

  const CODE_TTL := 600
  const REQUEST_TTL := 120

  datatype AuthCode = AuthCode(
    clientId: string, redirectUri: string, scope: string, challenge: string, audience: string, expiresAt: nat)

  datatype Decision = Approved | Pending | Denied

  datatype CibaRequest = CibaRequest(
    clientId: string, scope: string, audience: string, decision: Decision, expiresAt: nat)

  // ----- what the server takes from outside -----

  /** Minting of opaque ids from a counter, the S256 transform, and the bytes of a string. */
  datatype Env = Env(
    mintCode: nat -> string, mintRequest: nat -> string, s256: string -> string, utf8: string -> Pkce.Bytes)

  ghost predicate IsLawful(env: Env) {
    (forall i: nat, j: nat :: env.mintCode(i) == env.mintCode(j) ==> i == j)
    && (forall i: nat, j: nat :: env.mintRequest(i) == env.mintRequest(j) ==> i == j)
    && (forall a, b :: env.utf8(a) == env.utf8(b) ==> a == b)
  }

  predicate PkceMatches(env: Env, verifier: string, challenge: string) {
    env.utf8(env.s256(verifier)) == env.utf8(challenge)
  }

  method PkceS256Matches(env: Env, verifier: string, challenge: string) returns (matches: bool)
    ensures matches <==> PkceMatches(env, verifier, challenge)
  {
    matches := ConstantTimeEq(env.utf8(env.s256(verifier)), env.utf8(challenge));
  }

  // ----- requests -----

  /** The client identities a request presents, in order of precedence. */
  datatype ClientAuth = ClientAuth(basic: Option<string>, form: Option<string>, assertion: Option<string>)

  function ClientId(auth: ClientAuth): Option<string> {
    if auth.basic.Some? then auth.basic else if auth.form.Some? then auth.form else auth.assertion
  }

  /** `base` is the issuer URL of the request, and each clock reading is an input. */
  datatype Request =
    | Authorize(
        clientId: Option<string>, redirectUri: Option<string>, responseType: Option<string>, challenge: Option<string>,
        challengeMethod: Option<string>, scope: Option<string>, base: string, now: nat)
    | BcAuthorize(auth: ClientAuth, loginHint: Option<string>, scope: Option<string>, base: string, now: nat)
    | TokenRequest(
        grantType: Option<string>, auth: ClientAuth, scope: Option<string>, code: Option<string>,
        verifier: Option<string>, redirectUri: Option<string>, authReqId: Option<string>,
        base: string, now: nat, issuedAt: nat)

  datatype ErrorCode =
    | InvalidRequest | InvalidClient | InvalidGrant | InvalidScope
    | UnsupportedGrantType | UnsupportedResponseType
    | AuthorizationPending | AccessDenied | ExpiredToken

  datatype Reply =
    | CodeGranted(code: string)
    | RequestOpened(authReqId: string)
    | TokenGranted(claims: AccessClaims)
    | Refused(error: ErrorCode)
    | Redirected(error: ErrorCode)

  function NonEmpty(value: Option<string>): Option<string> {
    if value.Some? && value.value == "" then None else value
  }

  predicate IsWhitespace(c: char) {
    '\t' <= c <= '\r' || c == ' ' || c == '\U{0085}' || c == '\U{00a0}' || c == '\U{1680}'
    || '\U{2000}' <= c <= '\U{200a}'
    || c == '\U{2028}' || c == '\U{2029}' || c == '\U{202f}' || c == '\U{205f}' || c == '\U{3000}'
  }

  function NonBlank(value: Option<string>): Option<string> {
    if value.Some? && All(value.value, IsWhitespace) then None else value
  }

  function OrDefault(value: Option<string>): string {
    if value.Some? then value.value else ""
  }

  /** The position of the first `://`, or the length of `s` when there is none. */
  function SchemeEnd(s: string): (i: nat)
    ensures i <= |s|
  {
    if s == [] || StartsWith(s, "://") then 0 else SchemeEnd(s[1..]) + 1
  }

  predicate IsSchemeChar(c: char) {
    IsAlphanumeric(c) || c == '+' || c == '-' || c == '.'
  }

  predicate IsAbsoluteUri(uri: string) {
    var i := SchemeEnd(uri);
    i < |uri| && i > 0 && |uri| > i + 3 && All(uri[..i], IsSchemeChar)
  }

  /** The login hint decides the outcome: `denied` wins over `pending`, anything else approves. */
  function DecisionFor(hint: string): Decision {
    var lower := ToAsciiLowercase(hint);
    if Contains(lower, "denied") then Denied else if Contains(lower, "pending") then Pending else Approved
  }

  // ----- state -----

  datatype Grant =
    | FromCode(code: string, entry: AuthCode, verifier: string, redirectUri: string, now: nat)
    | FromRequest(authReqId: string, request: CibaRequest, now: nat)
    | FromClient

  /** What has happened: the log is history only, no handler reads it. */
  datatype Event =
    | CodeIssued(code: string, entry: AuthCode, at: nat)
    | RequestIssued(authReqId: string, hint: string, request: CibaRequest, at: nat)
    | TokenIssued(grant: Grant, claims: AccessClaims)

  datatype Server = Server(
    codes: map<string, AuthCode>, nextCode: nat,
    requests: map<string, CibaRequest>, nextRequest: nat,
    nextJti: nat, log: seq<Event>)

  const FRESH: Server := Server(map[], 0, map[], 0, 0, [])

  function HexDigit(d: nat): (c: char)
    requires d < 16
    ensures c != '-'
  {
    (if d < 10 then d + '0' as int else d - 10 + 'a' as int) as char
  }

  /** `format!("{n:x}")`. */
  function HexDigits(n: nat): (s: string)
    ensures |s| >= 1 && '-' !in s
    ensures |s| == 1 <==> n < 16
  {
    if n < 16 then [HexDigit(n)] else HexDigits(n / 16) + [HexDigit(n % 16)]
  }

  /** The id of a token: when it was issued, and how many were issued before it. */
  function Jti(iat: nat, n: nat): string {
    HexDigits(iat) + ['-'] + HexDigits(n)
  }

  function IssueToken(
      s: Server, grant: Grant, iss: string, aud: string, clientId: string, sub: string, scope: string, iat: nat)
      : (Server, Reply)
  {
    var claims := AccessClaims(iss, sub, aud, clientId, scope, Jti(iat, s.nextJti), iat);
    (s.(nextJti := s.nextJti + 1, log := s.log + [TokenIssued(grant, claims)]), TokenGranted(claims))
  }

  // ----- the handlers -----

  function AuthorizeRefusal(req: Request): Option<Reply>
    requires req.Authorize?
  {
    if NonBlank(req.clientId).None? then Some(Refused(InvalidRequest))
    else if NonBlank(req.redirectUri).None? || !IsAbsoluteUri(req.redirectUri.value) then Some(Refused(InvalidRequest))
    else if req.responseType != Some("code") then Some(Redirected(UnsupportedResponseType))
    else if NonBlank(req.challenge).None? then Some(Redirected(InvalidRequest))
    else if req.challengeMethod != Some("S256") then Some(Redirected(InvalidRequest))
    else if req.scope.Some? && ValidateScope(req.scope.value).Some? then Some(Redirected(InvalidScope))
    else None
  }

  function ServeAuthorize(env: Env, s: Server, req: Request): (Server, Reply)
    requires req.Authorize?
  {
    if AuthorizeRefusal(req).Some? then (s, AuthorizeRefusal(req).value)
    else
      var entry := AuthCode(req.clientId.value, req.redirectUri.value, OrDefault(req.scope), req.challenge.value,
                            req.base, req.now + CODE_TTL);
      var code := env.mintCode(s.nextCode);
      (s.(codes := s.codes[code := entry], nextCode := s.nextCode + 1,
           log := s.log + [CodeIssued(code, entry, req.now)]),
       CodeGranted(code))
  }

  function ServeBcAuthorize(env: Env, s: Server, req: Request): (Server, Reply)
    requires req.BcAuthorize?
  {
    var clientId, hint, scope := ClientId(req.auth), NonEmpty(req.loginHint), NonEmpty(req.scope);
    if clientId.None? then (s, Refused(InvalidClient))
    else if hint.None? || scope.None? then (s, Refused(InvalidRequest))
    else if ValidateScope(scope.value).Some? then (s, Refused(InvalidScope))
    else
      var request := CibaRequest(clientId.value, scope.value, req.base, DecisionFor(hint.value), req.now + REQUEST_TTL);
      var id := env.mintRequest(s.nextRequest);
      (s.(requests := s.requests[id := request], nextRequest := s.nextRequest + 1,
          log := s.log + [RequestIssued(id, hint.value, request, req.now)]),
       RequestOpened(id))
  }

  function ServeClientCredentials(s: Server, req: Request): (Server, Reply)
    requires req.TokenRequest?
  {
    var clientId, scope := ClientId(req.auth), OrDefault(req.scope);
    if clientId.None? then (s, Refused(InvalidClient))
    else if ValidateScope(scope).Some? then (s, Refused(InvalidScope))
    else IssueToken(s, FromClient, req.base, req.base, clientId.value, clientId.value, scope, req.issuedAt)
  }

  /** The refusals before the code store is consulted. */
  function RedemptionRefusal(req: Request): Option<Reply>
    requires req.TokenRequest?
  {
    if NonEmpty(req.code).None? then Some(Refused(InvalidRequest))
    else if ClientId(req.auth).None? then Some(Refused(InvalidClient))
    else if NonEmpty(req.verifier).None? || NonEmpty(req.redirectUri).None? then Some(Refused(InvalidRequest))
    else None
  }

  predicate RedemptionMatches(env: Env, entry: AuthCode, req: Request)
    requires req.TokenRequest? && RedemptionRefusal(req).None?
  {
    req.now < entry.expiresAt
    && req.redirectUri.value == entry.redirectUri
    && ClientId(req.auth).value == entry.clientId
    && PkceMatches(env, req.verifier.value, entry.challenge)
  }

  /** The code is consumed before it is checked, so a failed redemption spends it too. */
  function ServeAuthorizationCode(env: Env, s: Server, req: Request): (Server, Reply)
    requires req.TokenRequest?
  {
    if RedemptionRefusal(req).Some? then (s, RedemptionRefusal(req).value)
    else if req.code.value !in s.codes then (s, Refused(InvalidGrant))
    else
      var entry := s.codes[req.code.value];
      var spent := s.(codes := s.codes - {req.code.value});
      if !RedemptionMatches(env, entry, req) then (spent, Refused(InvalidGrant))
      else
        IssueToken(spent, FromCode(req.code.value, entry, req.verifier.value, req.redirectUri.value, req.now),
                   req.base, entry.audience, ClientId(req.auth).value, "camarasim-user", entry.scope, req.issuedAt)
  }

  datatype Poll = PollApproved(request: CibaRequest) | PollPending | PollDenied
    | PollExpired | PollUnknown | PollWrongClient

  /** Approval removes the request and so does expiry; every other answer leaves the store alone. */
  function PollRequests(requests: map<string, CibaRequest>, id: string, clientId: string, now: nat)
      : (map<string, CibaRequest>, Poll) {
    if id !in requests then (requests, PollUnknown)
    else
      var request := requests[id];
      if request.clientId != clientId then (requests, PollWrongClient)
      else if now >= request.expiresAt then (requests - {id}, PollExpired)
      else
        match request.decision
        case Pending => (requests, PollPending)
        case Denied => (requests, PollDenied)
        case Approved => (requests - {id}, PollApproved(request))
  }

  function PollError(p: Poll): ErrorCode
    requires !p.PollApproved?
  {
    match p
    case PollPending => AuthorizationPending
    case PollDenied => AccessDenied
    case PollExpired => ExpiredToken
    case _ => InvalidGrant
  }

  function ServeCiba(s: Server, req: Request): (Server, Reply)
    requires req.TokenRequest?
  {
    var clientId, id := ClientId(req.auth), NonEmpty(req.authReqId);
    if clientId.None? then (s, Refused(InvalidClient))
    else if id.None? then (s, Refused(InvalidRequest))
    else
      var (requests, p) := PollRequests(s.requests, id.value, clientId.value, req.now);
      var polled := s.(requests := requests);
      if !p.PollApproved? then (polled, Refused(PollError(p)))
      else
        IssueToken(polled, FromRequest(id.value, p.request, req.now),
                   req.base, p.request.audience, clientId.value, "camarasim-user", p.request.scope, req.issuedAt)
  }

  const CIBA_GRANT := "urn:openid:params:grant-type:ciba"

  function Serve(env: Env, s: Server, req: Request): (Server, Reply) {
    match req
    case Authorize(_, _, _, _, _, _, _, _) => ServeAuthorize(env, s, req)
    case BcAuthorize(_, _, _, _, _) => ServeBcAuthorize(env, s, req)
    case TokenRequest(_, _, _, _, _, _, _, _, _, _) =>
      if req.grantType == Some("client_credentials") then ServeClientCredentials(s, req)
      else if req.grantType == Some("authorization_code") then ServeAuthorizationCode(env, s, req)
      else if req.grantType == Some(CIBA_GRANT) then ServeCiba(s, req)
      else if req.grantType.Some? then (s, Refused(UnsupportedGrantType))
      else (s, Refused(InvalidRequest))
  }

  function Run(env: Env, reqs: seq<Request>): Server {
    if reqs == [] then FRESH else Serve(env, Run(env, reqs[..|reqs| - 1]), reqs[|reqs| - 1]).0
  }

  // ----- the stores in place -----

  class AuthStores {
    const env: Env
    var codes: map<string, AuthCode>
    var nextCode: nat
    var requests: map<string, CibaRequest>
    var nextRequest: nat
    var nextJti: nat
    ghost var log: seq<Event>
    ghost var served: seq<Request>

    constructor (env: Env)
      ensures this.env == env && Valid() && served == []
    {
      this.env := env;
      codes, nextCode, requests, nextRequest, nextJti, log, served := map[], 0, map[], 0, 0, [], [];
    }

    ghost function State(): Server
      reads this
    {
      Server(codes, nextCode, requests, nextRequest, nextJti, log)
    }

    /** The state is the one the requests served so far lead to. */
    ghost predicate Valid()
      reads this
    {
      State() == Run(env, served)
    }

    method IssueCode(entry: AuthCode) returns (code: string)
      modifies this`codes, this`nextCode
      ensures code == env.mintCode(old(nextCode)) && nextCode == old(nextCode) + 1
      ensures codes == old(codes)[code := entry]
    {
      code := env.mintCode(nextCode);
      nextCode := nextCode + 1;
      codes := codes[code := entry];
    }

    /** Single use: whatever happens next, the code is gone. */
    method Redeem(code: string) returns (entry: Option<AuthCode>)
      modifies this`codes
      ensures codes == old(codes) - {code}
      ensures entry == if code in old(codes) then Some(old(codes)[code]) else None
    {
      entry := if code in codes then Some(codes[code]) else None;
      codes := codes - {code};
    }

    method PollRequest(id: string, clientId: string, now: nat) returns (poll: Poll)
      modifies this`requests
      ensures (requests, poll) == PollRequests(old(requests), id, clientId, now)
    {
      if id !in requests {
        return PollUnknown;
      }
      var request := requests[id];
      if request.clientId != clientId {
        return PollWrongClient;
      }
      if now >= request.expiresAt {
        requests := requests - {id};
        return PollExpired;
      }
      match request.decision {
        case Pending => return PollPending;
        case Denied => return PollDenied;
        case Approved =>
          requests := requests - {id};
          return PollApproved(request);
      }
    }

    method IssueAccessToken(
        ghost grant: Grant, iss: string, aud: string, clientId: string, sub: string, scope: string, iat: nat)
      returns (claims: AccessClaims)
      modifies this`nextJti, this`log
      ensures (State(), TokenGranted(claims)) == IssueToken(old(State()), grant, iss, aud, clientId, sub, scope, iat)
    {
      claims := AccessClaims(iss, sub, aud, clientId, scope, Jti(iat, nextJti), iat);
      nextJti := nextJti + 1;
      log := log + [TokenIssued(grant, claims)];
    }

    method HandleAuthorize(req: Request) returns (reply: Reply)
      requires req.Authorize?
      modifies this`codes, this`nextCode, this`log
      ensures (State(), reply) == ServeAuthorize(env, old(State()), req)
    {
      var refusal := AuthorizeRefusal(req);
      if refusal.Some? {
        return refusal.value;
      }
      var entry := AuthCode(req.clientId.value, req.redirectUri.value, OrDefault(req.scope), req.challenge.value,
                            req.base, req.now + CODE_TTL);
      var code := IssueCode(entry);
      log := log + [CodeIssued(code, entry, req.now)];
      reply := CodeGranted(code);
    }

    method HandleBcAuthorize(req: Request) returns (reply: Reply)
      requires req.BcAuthorize?
      modifies this`requests, this`nextRequest, this`log
      ensures (State(), reply) == ServeBcAuthorize(env, old(State()), req)
    {
      var clientId, hint, scope := ClientId(req.auth), NonEmpty(req.loginHint), NonEmpty(req.scope);
      if clientId.None? {
        return Refused(InvalidClient);
      }
      if hint.None? || scope.None? {
        return Refused(InvalidRequest);
      }
      if ValidateScope(scope.value).Some? {
        return Refused(InvalidScope);
      }
      var request := CibaRequest(clientId.value, scope.value, req.base, DecisionFor(hint.value), req.now + REQUEST_TTL);
      var id := env.mintRequest(nextRequest);
      nextRequest := nextRequest + 1;
      requests := requests[id := request];
      log := log + [RequestIssued(id, hint.value, request, req.now)];
      reply := RequestOpened(id);
    }

    method HandleAuthorizationCode(req: Request) returns (reply: Reply)
      requires req.TokenRequest?
      modifies this`codes, this`nextJti, this`log
      ensures (State(), reply) == ServeAuthorizationCode(env, old(State()), req)
    {
      var refusal := RedemptionRefusal(req);
      if refusal.Some? {
        return refusal.value;
      }
      assert req.code.value !in codes ==> codes - {req.code.value} == codes;
      var redeemed := Redeem(req.code.value);
      if redeemed.None? {
        return Refused(InvalidGrant);
      }
      var entry := redeemed.value;
      if req.now >= entry.expiresAt || req.redirectUri.value != entry.redirectUri
         || ClientId(req.auth).value != entry.clientId {
        return Refused(InvalidGrant);
      }
      var matches := PkceS256Matches(env, req.verifier.value, entry.challenge);
      if !matches {
        return Refused(InvalidGrant);
      }
      var claims := IssueAccessToken(
        FromCode(req.code.value, entry, req.verifier.value, req.redirectUri.value, req.now),
        req.base, entry.audience, ClientId(req.auth).value, "camarasim-user", entry.scope, req.issuedAt);
      reply := TokenGranted(claims);
    }

    method HandleCiba(req: Request) returns (reply: Reply)
      requires req.TokenRequest?
      modifies this`requests, this`nextJti, this`log
      ensures (State(), reply) == ServeCiba(old(State()), req)
    {
      var clientId, id := ClientId(req.auth), NonEmpty(req.authReqId);
      if clientId.None? {
        return Refused(InvalidClient);
      }
      if id.None? {
        return Refused(InvalidRequest);
      }
      var poll := PollRequest(id.value, clientId.value, req.now);
      match poll {
        case PollApproved(request) =>
          var claims := IssueAccessToken(
            FromRequest(id.value, request, req.now),
            req.base, request.audience, clientId.value, "camarasim-user", request.scope, req.issuedAt);
          reply := TokenGranted(claims);
        case PollPending => reply := Refused(AuthorizationPending);
        case PollDenied => reply := Refused(AccessDenied);
        case PollExpired => reply := Refused(ExpiredToken);
        case PollUnknown => reply := Refused(InvalidGrant);
        case PollWrongClient => reply := Refused(InvalidGrant);
      }
    }

    method HandleClientCredentials(req: Request) returns (reply: Reply)
      requires req.TokenRequest?
      modifies this`nextJti, this`log
      ensures (State(), reply) == ServeClientCredentials(old(State()), req)
    {
      var clientId, scope := ClientId(req.auth), OrDefault(req.scope);
      if clientId.None? {
        return Refused(InvalidClient);
      }
      if ValidateScope(scope).Some? {
        return Refused(InvalidScope);
      }
      var claims := IssueAccessToken(FromClient, req.base, req.base, clientId.value, clientId.value,
        scope, req.issuedAt);
      reply := TokenGranted(claims);
    }

    /** The token endpoint: one grant or a refusal. */
    method HandleToken(req: Request) returns (reply: Reply)
      requires req.TokenRequest?
      modifies this`codes, this`requests, this`nextJti, this`log
      ensures (State(), reply) == Serve(env, old(State()), req)
    {
      if req.grantType == Some("client_credentials") {
        reply := HandleClientCredentials(req);
      } else if req.grantType == Some("authorization_code") {
        reply := HandleAuthorizationCode(req);
      } else if req.grantType == Some(CIBA_GRANT) {
        reply := HandleCiba(req);
      } else if req.grantType.Some? {
        reply := Refused(UnsupportedGrantType);
      } else {
        reply := Refused(InvalidRequest);
      }
    }

    /** Any one request, answered by its handler. */
    method Handle(req: Request) returns (reply: Reply)
      requires Valid()
      modifies this
      ensures Valid() && served == old(served) + [req]
      ensures (State(), reply) == Serve(env, old(State()), req)
    {
      match req {
        case Authorize(_, _, _, _, _, _, _, _) => reply := HandleAuthorize(req);
        case BcAuthorize(_, _, _, _, _) => reply := HandleBcAuthorize(req);
        case TokenRequest(_, _, _, _, _, _, _, _, _, _) => reply := HandleToken(req);
      }
      assert (served + [req])[..|served|] == served;
      hide Serve, ServeAuthorize, ServeBcAuthorize;
      served := served + [req];
    }
  }
}
