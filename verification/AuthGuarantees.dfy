/** What the authorization server guarantees over every run of requests. */
module AuthGuarantees {
  import opened AuthServer
  import opened Jwt
  import opened PurposeScopes
  import opened Text
  import opened Wrappers

  // ----- where a stored entry came from -----

  /** `e` is the authorization that issued this code, 600 seconds before it expires. */
  predicate IsIssuing(e: Event, code: string, entry: AuthCode) {
    e.CodeIssued? && e.code == code && e.entry == entry && entry.expiresAt == e.at + CODE_TTL
  }

  /** `e` is the backchannel request that opened this id; its hint chose the decision. */
  predicate IsOpening(e: Event, id: string, request: CibaRequest) {
    e.RequestIssued? && e.authReqId == id && e.request == request
    && request.expiresAt == e.at + REQUEST_TTL && request.decision == DecisionFor(e.hint)
  }

  predicate WasIssued(log: seq<Event>, code: string, entry: AuthCode) {
    exists i :: 0 <= i < |log| && IsIssuing(log[i], code, entry)
  }

  predicate WasOpened(log: seq<Event>, id: string, request: CibaRequest) {
    exists i :: 0 <= i < |log| && IsOpening(log[i], id, request)
  }

  predicate SpendsCode(e: Event, code: string) {
    e.TokenIssued? && e.grant.FromCode? && e.grant.code == code
  }

  predicate SpendsRequest(e: Event, id: string) {
    e.TokenIssued? && e.grant.FromRequest? && e.grant.authReqId == id
  }

  /** A token's claims are those its grant entitles it to, and its grant goes back to an earlier event. */
  predicate IsEntitled(env: Env, earlier: seq<Event>, grant: Grant, claims: AccessClaims) {
    ValidateScope(claims.scope).None?
    && match grant
       case FromCode(code, entry, verifier, redirectUri, now) =>
         WasIssued(earlier, code, entry)
         && claims.clientId == entry.clientId && claims.scope == entry.scope && claims.aud == entry.audience
         && redirectUri == entry.redirectUri && env.s256(verifier) == entry.challenge && now < entry.expiresAt
       case FromRequest(id, request, now) =>
         WasOpened(earlier, id, request) && request.decision == Approved
         && claims.clientId == request.clientId && claims.scope == request.scope && claims.aud == request.audience
         && now < request.expiresAt
       case FromClient => claims.sub == claims.clientId && claims.iss == claims.aud
  }

  // ----- the invariant -----

  ghost predicate IsMinted(mint: nat -> string, counter: nat, id: string) {
    exists k: nat :: k < counter && mint(k) == id
  }

  ghost predicate CodesOk(env: Env, s: Server) {
    (forall code :: code in s.codes ==>
       WasIssued(s.log, code, s.codes[code]) && ValidateScope(s.codes[code].scope).None?)
    && (forall i :: 0 <= i < |s.log| && s.log[i].CodeIssued? ==> IsMinted(env.mintCode, s.nextCode, s.log[i].code))
    && (forall i, j :: 0 <= i < j < |s.log| && s.log[i].CodeIssued? && s.log[j].CodeIssued? ==>
          s.log[i].code != s.log[j].code)
  }

  ghost predicate RequestsOk(env: Env, s: Server) {
    (forall id :: id in s.requests ==>
       WasOpened(s.log, id, s.requests[id]) && ValidateScope(s.requests[id].scope).None?)
    && (forall i :: 0 <= i < |s.log| && s.log[i].RequestIssued? ==>
          IsMinted(env.mintRequest, s.nextRequest, s.log[i].authReqId))
    && (forall i, j :: 0 <= i < j < |s.log| && s.log[i].RequestIssued? && s.log[j].RequestIssued? ==>
          s.log[i].authReqId != s.log[j].authReqId)
  }

  predicate TokensOk(env: Env, s: Server) {
    forall i :: 0 <= i < |s.log| && s.log[i].TokenIssued? ==>
      IsEntitled(env, s.log[..i], s.log[i].grant, s.log[i].claims)
  }

  /** What a token was granted for is no longer in the stores. */
  predicate SpentIsGone(s: Server) {
    (forall i :: 0 <= i < |s.log| && s.log[i].TokenIssued? && s.log[i].grant.FromCode? ==>
       s.log[i].grant.code !in s.codes)
    && (forall i :: 0 <= i < |s.log| && s.log[i].TokenIssued? && s.log[i].grant.FromRequest? ==>
          s.log[i].grant.authReqId !in s.requests)
  }

  /** No two tokens were granted for the same code, or for the same backchannel request. */
  predicate SpentOnce(log: seq<Event>) {
    (forall i, j :: 0 <= i < j < |log| && log[i].TokenIssued? && log[i].grant.FromCode? ==>
       !SpendsCode(log[j], log[i].grant.code))
    && (forall i, j :: 0 <= i < j < |log| && log[i].TokenIssued? && log[i].grant.FromRequest? ==>
          !SpendsRequest(log[j], log[i].grant.authReqId))
  }

  ghost predicate Inv(env: Env, s: Server) {
    CodesOk(env, s) && RequestsOk(env, s) && TokensOk(env, s) && SpentIsGone(s) && SpentOnce(s.log)
  }

  // ----- one event at a time -----

  lemma LogGrows(log: seq<Event>, e: Event)
    ensures forall code, entry :: WasIssued(log, code, entry) ==> WasIssued(log + [e], code, entry)
    ensures forall id, request :: WasOpened(log, id, request) ==> WasOpened(log + [e], id, request)
  {
    forall code, entry | WasIssued(log, code, entry) ensures WasIssued(log + [e], code, entry) {
      var i :| 0 <= i < |log| && IsIssuing(log[i], code, entry);
      assert (log + [e])[i] == log[i];
    }
    forall id, request | WasOpened(log, id, request) ensures WasOpened(log + [e], id, request) {
      var i :| 0 <= i < |log| && IsOpening(log[i], id, request);
      assert (log + [e])[i] == log[i];
    }
  }

  lemma TokensStayOk(env: Env, s: Server, s': Server, e: Event)
    requires TokensOk(env, s) && s'.log == s.log + [e]
    requires e.TokenIssued? ==> IsEntitled(env, s.log, e.grant, e.claims)
    ensures TokensOk(env, s')
  {
    hide IsEntitled;
    forall i | 0 <= i < |s'.log| && s'.log[i].TokenIssued?
      ensures IsEntitled(env, s'.log[..i], s'.log[i].grant, s'.log[i].claims)
    {
      assert i < |s.log| ==> s'.log[..i] == s.log[..i];
      assert i == |s.log| ==> s'.log[..i] == s.log;
    }
  }

  lemma MintIsNew(mint: nat -> string, counter: nat)
    requires forall i: nat, j: nat :: mint(i) == mint(j) ==> i == j
    ensures !IsMinted(mint, counter, mint(counter)) && IsMinted(mint, counter + 1, mint(counter))
    ensures forall id :: IsMinted(mint, counter, id) ==> IsMinted(mint, counter + 1, id)
  {
  }

  lemma IssuedIsMinted(env: Env, s: Server, code: string)
    requires CodesOk(env, s) && code in s.codes
    ensures IsMinted(env.mintCode, s.nextCode, code)
  {
    var i :| 0 <= i < |s.log| && IsIssuing(s.log[i], code, s.codes[code]);
  }

  lemma OpenedIsMinted(env: Env, s: Server, id: string)
    requires RequestsOk(env, s) && id in s.requests
    ensures IsMinted(env.mintRequest, s.nextRequest, id)
  {
    var i :| 0 <= i < |s.log| && IsOpening(s.log[i], id, s.requests[id]);
  }

  /** A spent code or request id was minted before. */
  lemma SpentIsMinted(env: Env, s: Server, i: nat)
    requires CodesOk(env, s) && RequestsOk(env, s) && TokensOk(env, s) && i < |s.log| && s.log[i].TokenIssued?
    ensures s.log[i].grant.FromCode? ==> IsMinted(env.mintCode, s.nextCode, s.log[i].grant.code)
    ensures s.log[i].grant.FromRequest? ==> IsMinted(env.mintRequest, s.nextRequest, s.log[i].grant.authReqId)
  {
    var g := s.log[i].grant;
    assert IsEntitled(env, s.log[..i], g, s.log[i].claims);
    if g.FromCode? {
      var k :| 0 <= k < i && IsIssuing(s.log[..i][k], g.code, g.entry);
      assert s.log[k].CodeIssued? && s.log[k].code == g.code;
    } else if g.FromRequest? {
      var k :| 0 <= k < i && IsOpening(s.log[..i][k], g.authReqId, g.request);
      assert s.log[k].RequestIssued? && s.log[k].authReqId == g.authReqId;
    }
  }

  lemma OnceGrows(log: seq<Event>, e: Event)
    requires SpentOnce(log)
    requires e.TokenIssued? && e.grant.FromCode? ==> forall i :: 0 <= i < |log| ==> !SpendsCode(log[i], e.grant.code)
    requires e.TokenIssued? && e.grant.FromRequest? ==>
      forall i :: 0 <= i < |log| ==> !SpendsRequest(log[i], e.grant.authReqId)
    ensures SpentOnce(log + [e])
  {
  }

  lemma CodesStayOk(env: Env, s: Server, s': Server, e: Event)
    requires CodesOk(env, s) && s'.log == s.log + [e]
    requires s'.codes == s.codes && s'.nextCode == s.nextCode && !e.CodeIssued?
    ensures CodesOk(env, s')
  {
    LogGrows(s.log, e);
    hide IsMinted, WasIssued, ValidateScope;
  }

  lemma RequestsStayOk(env: Env, s: Server, s': Server, e: Event)
    requires RequestsOk(env, s) && s'.log == s.log + [e]
    requires s'.requests == s.requests && s'.nextRequest == s.nextRequest && !e.RequestIssued?
    ensures RequestsOk(env, s')
  {
    LogGrows(s.log, e);
    hide IsMinted, WasOpened, ValidateScope;
  }

  lemma NewCodeOk(env: Env, s: Server, s': Server, e: Event)
    requires CodesOk(env, s) && AuthServer.IsLawful(env)
    requires e.CodeIssued? && e.code == env.mintCode(s.nextCode) && IsIssuing(e, e.code, e.entry)
    requires ValidateScope(e.entry.scope).None?
    requires s'.codes == s.codes[e.code := e.entry] && s'.nextCode == s.nextCode + 1 && s'.log == s.log + [e]
    ensures CodesOk(env, s')
  {
    MintIsNew(env.mintCode, s.nextCode);
    LogGrows(s.log, e);
    assert IsIssuing(s'.log[|s.log|], e.code, e.entry);
    assert WasIssued(s'.log, e.code, e.entry);
    hide IsMinted, WasIssued, ValidateScope, IsIssuing;
  }

  lemma NewRequestOk(env: Env, s: Server, s': Server, e: Event)
    requires RequestsOk(env, s) && AuthServer.IsLawful(env)
    requires e.RequestIssued? && e.authReqId == env.mintRequest(s.nextRequest) && IsOpening(e, e.authReqId, e.request)
    requires ValidateScope(e.request.scope).None?
    requires s'.requests == s.requests[e.authReqId := e.request] && s'.nextRequest == s.nextRequest + 1
    requires s'.log == s.log + [e]
    ensures RequestsOk(env, s')
  {
    hide ValidateScope, DecisionFor;
    MintIsNew(env.mintRequest, s.nextRequest);
    LogGrows(s.log, e);
    assert s'.log[|s.log|] == e && IsOpening(s'.log[|s.log|], e.authReqId, e.request);
    assert WasOpened(s'.log, e.authReqId, e.request);
    hide IsMinted, WasOpened, ValidateScope, IsOpening;
  }

  /** Issuing a code. */
  lemma CodeIssuedKeeps(env: Env, s: Server, s': Server, e: Event)
    requires Inv(env, s) && AuthServer.IsLawful(env)
    requires e.CodeIssued? && e.code == env.mintCode(s.nextCode) && IsIssuing(e, e.code, e.entry)
    requires ValidateScope(e.entry.scope).None?
    requires s' == s.(codes := s.codes[e.code := e.entry], nextCode := s.nextCode + 1, log := s.log + [e])
    ensures Inv(env, s')
  {
    NewCodeOk(env, s, s', e);
    RequestsStayOk(env, s, s', e);
    TokensStayOk(env, s, s', e);
    OnceGrows(s.log, e);
    MintIsNew(env.mintCode, s.nextCode);
    hide IsMinted, WasIssued, WasOpened, ValidateScope;
    forall i | 0 <= i < |s.log| && s.log[i].TokenIssued? && s.log[i].grant.FromCode?
      ensures s.log[i].grant.code != e.code
    {
      SpentIsMinted(env, s, i);
    }
    hide CodesOk, RequestsOk, TokensOk, SpentOnce;
    assert SpentIsGone(s');
  }

  /** Opening a backchannel request. */
  lemma RequestIssuedKeeps(env: Env, s: Server, s': Server, e: Event)
    requires Inv(env, s) && AuthServer.IsLawful(env)
    requires e.RequestIssued? && e.authReqId == env.mintRequest(s.nextRequest) && IsOpening(e, e.authReqId, e.request)
    requires ValidateScope(e.request.scope).None?
    requires s' == s.(requests := s.requests[e.authReqId := e.request],
      nextRequest := s.nextRequest + 1, log := s.log + [e])
    ensures Inv(env, s')
  {
    NewRequestOk(env, s, s', e);
    CodesStayOk(env, s, s', e);
    TokensStayOk(env, s, s', e);
    OnceGrows(s.log, e);
    MintIsNew(env.mintRequest, s.nextRequest);
    hide IsMinted, WasIssued, WasOpened, ValidateScope;
    forall i | 0 <= i < |s.log| && s.log[i].TokenIssued? && s.log[i].grant.FromRequest?
      ensures s.log[i].grant.authReqId != e.authReqId
    {
      SpentIsMinted(env, s, i);
    }
    hide CodesOk, RequestsOk, TokensOk, SpentOnce;
    assert SpentIsGone(s');
  }

  /** Consuming a code or a request, with or without a token to show for it. */
  lemma DropKeeps(env: Env, s: Server, codes: map<string, AuthCode>, requests: map<string, CibaRequest>)
    requires Inv(env, s)
    requires forall code :: code in codes ==> code in s.codes && codes[code] == s.codes[code]
    requires forall id :: id in requests ==> id in s.requests && requests[id] == s.requests[id]
    ensures Inv(env, s.(codes := codes, requests := requests))
  {
    hide IsMinted, WasIssued, WasOpened, ValidateScope, IsEntitled;
  }

  /** A token backed by an entry that has just been consumed, and by none that was consumed before. */
  lemma TokenKeeps(env: Env, s: Server, s': Server, e: Event)
    requires Inv(env, s) && e.TokenIssued? && IsEntitled(env, s.log, e.grant, e.claims)
    requires e.grant.FromCode? ==> e.grant.code !in s.codes
    requires e.grant.FromRequest? ==> e.grant.authReqId !in s.requests
    requires e.grant.FromCode? ==> forall i :: 0 <= i < |s.log| ==> !SpendsCode(s.log[i], e.grant.code)
    requires e.grant.FromRequest? ==> forall i :: 0 <= i < |s.log| ==> !SpendsRequest(s.log[i], e.grant.authReqId)
    requires s'.log == s.log + [e] && s'.codes == s.codes && s'.requests == s.requests
    requires s'.nextCode == s.nextCode && s'.nextRequest == s.nextRequest
    ensures Inv(env, s')
  {
    CodesStayOk(env, s, s', e);
    RequestsStayOk(env, s, s', e);
    TokensStayOk(env, s, s', e);
    OnceGrows(s.log, e);
    hide IsEntitled, CodesOk, RequestsOk, TokensOk, SpentOnce;
    assert SpentIsGone(s');
  }

  // ----- the handlers -----

  lemma AuthorizeKeeps(env: Env, s: Server, req: Request)
    requires Inv(env, s) && AuthServer.IsLawful(env) && req.Authorize?
    ensures Inv(env, ServeAuthorize(env, s, req).0)
  {
    if AuthorizeRefusal(req).None? {
      var s' := ServeAuthorize(env, s, req).0;
      var e := s'.log[|s.log|];
      assert ValidateScope("").None? by {
        EmptyScopeIsValid();
      }
      hide Inv, ValidateScope;
      CodeIssuedKeeps(env, s, s', e);
    }
  }

  lemma EmptyScopeIsValid()
    ensures ValidateScope("").None?
  {
    assert Split("", ' ') == [""];
  }

  lemma BcAuthorizeKeeps(env: Env, s: Server, req: Request)
    requires Inv(env, s) && AuthServer.IsLawful(env) && req.BcAuthorize?
    ensures Inv(env, ServeBcAuthorize(env, s, req).0)
  {
    hide Inv, ValidateScope, DecisionFor;
    var (s', reply) := ServeBcAuthorize(env, s, req);
    if reply.RequestOpened? {
      RequestIssuedKeeps(env, s, s', s'.log[|s.log|]);
    }
  }

  lemma ClientCredentialsKeeps(env: Env, s: Server, req: Request)
    requires Inv(env, s) && req.TokenRequest?
    ensures Inv(env, ServeClientCredentials(s, req).0)
  {
    hide Inv, ValidateScope;
    var (s', reply) := ServeClientCredentials(s, req);
    if reply.TokenGranted? {
      TokenKeeps(env, s, s', s'.log[|s.log|]);
    }
  }

  lemma AuthorizationCodeKeeps(env: Env, s: Server, req: Request)
    requires Inv(env, s) && AuthServer.IsLawful(env) && req.TokenRequest?
    ensures Inv(env, ServeAuthorizationCode(env, s, req).0)
  {
    if RedemptionRefusal(req).None? && req.code.value in s.codes {
      var code := req.code.value;
      var entry := s.codes[code];
      var spent := s.(codes := s.codes - {code});
      DropKeeps(env, s, s.codes - {code}, s.requests);
      assert WasIssued(s.log, code, entry) && ValidateScope(entry.scope).None?;
      assert forall i :: 0 <= i < |s.log| ==> !SpendsCode(s.log[i], code);
      hide Inv, ValidateScope, WasIssued;
      if RedemptionMatches(env, entry, req) {
        var s' := ServeAuthorizationCode(env, s, req).0;
        TokenKeeps(env, spent, s', s'.log[|s.log|]);
      }
    }
  }

  lemma PollDrops(requests: map<string, CibaRequest>, id: string, clientId: string, now: nat)
    ensures var (after, p) := PollRequests(requests, id, clientId, now);
      (forall k :: k in after ==> k in requests && after[k] == requests[k])
      && (p.PollApproved? ==> (id in requests && id !in after && p.request == requests[id]
                               && p.request.decision == Approved && p.request.clientId == clientId
                               && now < p.request.expiresAt))
  {
  }

  lemma CibaKeeps(env: Env, s: Server, req: Request)
    requires Inv(env, s) && req.TokenRequest?
    ensures Inv(env, ServeCiba(s, req).0)
  {
    var clientId, id := ClientId(req.auth), NonEmpty(req.authReqId);
    if clientId.Some? && id.Some? {
      var (requests, p) := PollRequests(s.requests, id.value, clientId.value, req.now);
      PollDrops(s.requests, id.value, clientId.value, req.now);
      DropKeeps(env, s, s.codes, requests);
      if p.PollApproved? {
        ApprovedIsUnspent(env, s, id.value);
        hide Inv, ValidateScope, WasOpened, PollRequests;
        var s' := ServeCiba(s, req).0;
        TokenKeeps(env, s.(requests := requests), s', s'.log[|s.log|]);
      }
    }
  }

  lemma ApprovedIsUnspent(env: Env, s: Server, id: string)
    requires Inv(env, s) && id in s.requests
    ensures WasOpened(s.log, id, s.requests[id]) && ValidateScope(s.requests[id].scope).None?
    ensures forall i :: 0 <= i < |s.log| ==> !SpendsRequest(s.log[i], id)
  {
  }

  lemma ServeKeeps(env: Env, s: Server, req: Request)
    requires Inv(env, s) && AuthServer.IsLawful(env)
    ensures Inv(env, Serve(env, s, req).0)
  {
    hide Inv, ServeAuthorize, ServeBcAuthorize, ServeClientCredentials, ServeAuthorizationCode, ServeCiba;
    match req {
      case Authorize(_, _, _, _, _, _, _, _) => AuthorizeKeeps(env, s, req);
      case BcAuthorize(_, _, _, _, _) => BcAuthorizeKeeps(env, s, req);
      case TokenRequest(_, _, _, _, _, _, _, _, _, _) =>
        ClientCredentialsKeeps(env, s, req);
        AuthorizationCodeKeeps(env, s, req);
        CibaKeeps(env, s, req);
    }
  }

  lemma {:induction false} RunKeeps(env: Env, reqs: seq<Request>)
    requires AuthServer.IsLawful(env)
    ensures Inv(env, Run(env, reqs))
  {
    if reqs != [] {
      RunKeeps(env, reqs[..|reqs| - 1]);
      ServeKeeps(env, Run(env, reqs[..|reqs| - 1]), reqs[|reqs| - 1]);
    }
  }

  /** So it holds in the stores between any two requests, whatever was served before. */
  lemma StoresAreGuarded(stores: AuthStores)
    requires stores.Valid() && AuthServer.IsLawful(stores.env)
    ensures Inv(stores.env, stores.State())
  {
    RunKeeps(stores.env, stores.served);
  }

  // ----- authorization codes -----

  /**
   Every token granted for a code goes back to exactly one authorization: it names that client,
   redirect URI, scope and audience, its verifier hashes to that challenge, and it was less than 600
   seconds old.
   */
  lemma CodeTokenHasOneAuthorization(env: Env, reqs: seq<Request>, j: nat) returns (i: nat)
    requires AuthServer.IsLawful(env)
    requires j < |Run(env, reqs).log| && Run(env, reqs).log[j].TokenIssued? && Run(env, reqs).log[j].grant.FromCode?
    ensures var log := Run(env, reqs).log;
      var (grant, claims) := (log[j].grant, log[j].claims);
      i < j && log[i].CodeIssued? && log[i].code == grant.code
      && (forall k :: 0 <= k < |log| && log[k].CodeIssued? && log[k].code == grant.code ==> k == i)
      && claims.clientId == log[i].entry.clientId && claims.scope == log[i].entry.scope
      && claims.aud == log[i].entry.audience && grant.redirectUri == log[i].entry.redirectUri
      && env.s256(grant.verifier) == log[i].entry.challenge && grant.now < log[i].at + 600
  {
    RunKeeps(env, reqs);
    var log := Run(env, reqs).log;
    var g := log[j].grant;
    assert IsEntitled(env, log[..j], g, log[j].claims);
    hide Run;
    i :| 0 <= i < j && IsIssuing(log[..j][i], g.code, g.entry);
    assert log[..j][i] == log[i];
  }

  /** No code ever yields two tokens. */
  lemma CodeYieldsOneToken(env: Env, reqs: seq<Request>, code: string, i: nat, j: nat)
    requires AuthServer.IsLawful(env) && i < |Run(env, reqs).log| && j < |Run(env, reqs).log|
    requires SpendsCode(Run(env, reqs).log[i], code) && SpendsCode(Run(env, reqs).log[j], code)
    ensures i == j
  {
    RunKeeps(env, reqs);
    hide Run;
  }

  /** An entry that has left the stores never comes back. */
  lemma NothingIsRevived(env: Env, s: Server, req: Request)
    requires AuthServer.IsLawful(env)
    ensures var s' := Serve(env, s, req).0;
      (forall code :: IsMinted(env.mintCode, s.nextCode, code) ==>
         IsMinted(env.mintCode, s'.nextCode, code) && (code in s'.codes ==> code in s.codes))
      && (forall id :: IsMinted(env.mintRequest, s.nextRequest, id) ==>
            IsMinted(env.mintRequest, s'.nextRequest, id) && (id in s'.requests ==> id in s.requests))
  {
    MintIsNew(env.mintCode, s.nextCode);
    MintIsNew(env.mintRequest, s.nextRequest);
    hide IsMinted, ValidateScope, AuthorizeRefusal, RedemptionMatches, DecisionFor;
  }

  lemma {:induction false} GoneForGood(env: Env, reqs: seq<Request>, more: seq<Request>, code: string, id: string)
    requires AuthServer.IsLawful(env)
    ensures var (s, t) := (Run(env, reqs), Run(env, reqs + more));
      (IsMinted(env.mintCode, s.nextCode, code) && code !in s.codes ==>
         IsMinted(env.mintCode, t.nextCode, code) && code !in t.codes)
      && (IsMinted(env.mintRequest, s.nextRequest, id) && id !in s.requests ==>
            IsMinted(env.mintRequest, t.nextRequest, id) && id !in t.requests)
  {
    hide IsMinted, Serve;
    if more == [] {
      assert reqs + more == reqs;
    } else {
      var front, last := more[..|more| - 1], more[|more| - 1];
      GoneForGood(env, reqs, front, code, id);
      NothingIsRevived(env, Run(env, reqs + front), last);
      assert reqs + more == reqs + front + [last];
      assert (reqs + front + [last])[..|reqs + front|] == reqs + front;
    }
  }

  predicate IsRedemption(req: Request, code: string) {
    req.TokenRequest? && req.grantType == Some("authorization_code")
    && req.code == Some(code) && RedemptionRefusal(req).None?
  }

  /**
   A redemption that reaches the store spends the code whether or not it succeeds: after any further
   requests, redeeming the code again is refused and changes nothing.
   */
  lemma RedemptionSpendsTheCode(
      env: Env, reqs: seq<Request>, first: Request, more: seq<Request>, again: Request, code: string)
    requires AuthServer.IsLawful(env) && code in Run(env, reqs).codes
    requires IsRedemption(first, code) && IsRedemption(again, code)
    ensures var later := Run(env, reqs + [first] + more);
      code !in later.codes && Serve(env, later, again) == (later, Refused(InvalidGrant))
  {
    RunKeeps(env, reqs);
    var s := Run(env, reqs);
    IssuedIsMinted(env, s, code);
    NothingIsRevived(env, s, first);
    assert code !in Serve(env, s, first).0.codes;
    assert (reqs + [first])[..|reqs|] == reqs;
    hide IsMinted, Serve, Inv;
    GoneForGood(env, reqs + [first], more, code, code);
    var later := Run(env, reqs + [first] + more);
    RefusedWhenGone(env, later, again, code);
  }

  lemma RefusedWhenGone(env: Env, s: Server, req: Request, code: string)
    requires IsRedemption(req, code) && code !in s.codes
    ensures Serve(env, s, req) == (s, Refused(InvalidGrant))
  {
  }

  // ----- backchannel requests -----

  /** The letters of the login hint decide, `denied` before `pending`, in either case. */
  lemma HintDecides(hint: string)
    ensures DecisionFor(hint) ==
      if Spells(hint, "denied", "DENIED") then Denied
      else if Spells(hint, "pending", "PENDING") then Pending
      else Approved
  {
    ContainsSpells(hint, "denied", "DENIED");
    ContainsSpells(hint, "pending", "PENDING");
    hide Contains, Spells;
  }

  /** Every CIBA token goes back to exactly one request, of its own client, unexpired, whose hint approves. */
  lemma CibaTokenHasOneRequest(env: Env, reqs: seq<Request>, j: nat) returns (i: nat)
    requires AuthServer.IsLawful(env)
    requires j < |Run(env, reqs).log| && Run(env, reqs).log[j].TokenIssued? && Run(env, reqs).log[j].grant.FromRequest?
    ensures var log := Run(env, reqs).log;
      var (grant, claims) := (log[j].grant, log[j].claims);
      i < j && log[i].RequestIssued? && log[i].authReqId == grant.authReqId
      && (forall k :: 0 <= k < |log| && log[k].RequestIssued? && log[k].authReqId == grant.authReqId ==> k == i)
      && claims.clientId == log[i].request.clientId && claims.scope == log[i].request.scope
      && claims.aud == log[i].request.audience && grant.now < log[i].at + 120
      && !Spells(log[i].hint, "denied", "DENIED") && !Spells(log[i].hint, "pending", "PENDING")
  {
    RunKeeps(env, reqs);
    var log := Run(env, reqs).log;
    var g := log[j].grant;
    assert IsEntitled(env, log[..j], g, log[j].claims);
    hide Run, DecisionFor, Spells;
    i :| 0 <= i < j && IsOpening(log[..j][i], g.authReqId, g.request);
    assert log[..j][i] == log[i];
    HintDecides(log[i].hint);
  }

  /** No backchannel request ever yields two tokens. */
  lemma RequestYieldsOneToken(env: Env, reqs: seq<Request>, id: string, i: nat, j: nat)
    requires AuthServer.IsLawful(env) && i < |Run(env, reqs).log| && j < |Run(env, reqs).log|
    requires SpendsRequest(Run(env, reqs).log[i], id) && SpendsRequest(Run(env, reqs).log[j], id)
    ensures i == j
  {
    RunKeeps(env, reqs);
    hide Run;
  }

  predicate IsPoll(req: Request, id: string, clientId: string) {
    req.TokenRequest? && req.grantType == Some(CIBA_GRANT)
    && ClientId(req.auth) == Some(clientId) && NonEmpty(req.authReqId) == Some(id)
  }

  /**
   What a poll answers, and that only approval and expiry change anything: a foreign client, a
   pending and a denied poll leave the whole server as it was.
   */
  lemma PollAnswers(env: Env, s: Server, req: Request, id: string, clientId: string)
    requires IsPoll(req, id, clientId)
    ensures var (s', reply) := Serve(env, s, req);
      if id !in s.requests || s.requests[id].clientId != clientId then s' == s && reply == Refused(InvalidGrant)
      else if req.now >= s.requests[id].expiresAt then
        s' == s.(requests := s.requests - {id}) && reply == Refused(ExpiredToken)
      else if s.requests[id].decision == Pending then s' == s && reply == Refused(AuthorizationPending)
      else if s.requests[id].decision == Denied then s' == s && reply == Refused(AccessDenied)
      else s'.requests == s.requests - {id} && s'.codes == s.codes && reply.TokenGranted?
  {
  }

  lemma PollGrants(env: Env, s: Server, req: Request, id: string, clientId: string)
    requires IsPoll(req, id, clientId) && Serve(env, s, req).1.TokenGranted?
    ensures var claims := Serve(env, s, req).1.claims;
      id in s.requests && claims.clientId == clientId
      && claims.scope == s.requests[id].scope && claims.aud == s.requests[id].audience
  {
    hide HexDigits;
  }

  /**
   The answer to a poll by the client that opened the request, told from the event that opened it: no
   request in the store, too late, or what the hint chose, with the scope and audience asked for then.
   */
  lemma PollFollowsHint(env: Env, reqs: seq<Request>, i: nat, poll: Request)
    requires AuthServer.IsLawful(env) && i < |Run(env, reqs).log| && Run(env, reqs).log[i].RequestIssued?
    requires IsPoll(poll, Run(env, reqs).log[i].authReqId, Run(env, reqs).log[i].request.clientId)
    ensures var (s, e) := (Run(env, reqs), Run(env, reqs).log[i]);
      var reply := Serve(env, s, poll).1;
      if e.authReqId !in s.requests then reply == Refused(InvalidGrant)
      else if poll.now >= e.at + 120 then reply == Refused(ExpiredToken)
      else if Spells(e.hint, "denied", "DENIED") then reply == Refused(AccessDenied)
      else if Spells(e.hint, "pending", "PENDING") then reply == Refused(AuthorizationPending)
      else reply.TokenGranted? && reply.claims.clientId == e.request.clientId
           && reply.claims.scope == e.request.scope && reply.claims.aud == e.request.audience
  {
    RunKeeps(env, reqs);
    var s, e := Run(env, reqs), Run(env, reqs).log[i];
    assert RequestsOk(env, s);
    PollAnswers(env, s, poll, e.authReqId, e.request.clientId);
    if Serve(env, s, poll).1.TokenGranted? {
      PollGrants(env, s, poll, e.authReqId, e.request.clientId);
    }
    HintDecides(e.hint);
    hide Run, Serve, DecisionFor, Spells, Inv, IsMinted, IsPoll, ValidateScope;
    if e.authReqId in s.requests {
      var k :| 0 <= k < |s.log| && IsOpening(s.log[k], e.authReqId, s.requests[e.authReqId]);
      assert k == i;
    }
  }

  /** A poll that is refused for any reason but expiry might as well not have happened. */
  lemma {:induction false} RefusedPollsLeaveNoTrace(
      env: Env, reqs: seq<Request>, poll: Request, more: seq<Request>, id: string, clientId: string)
    requires IsPoll(poll, id, clientId)
    requires var reply := Serve(env, Run(env, reqs), poll).1; !reply.TokenGranted? && reply != Refused(ExpiredToken)
    ensures Run(env, reqs + [poll] + more) == Run(env, reqs + more)
  {
    if more == [] {
      PollAnswers(env, Run(env, reqs), poll, id, clientId);
      assert reqs + more == reqs && reqs + [poll] + more == reqs + [poll];
      assert (reqs + [poll])[..|reqs|] == reqs;
    } else {
      var front, last := more[..|more| - 1], more[|more| - 1];
      RefusedPollsLeaveNoTrace(env, reqs, poll, front, id, clientId);
      hide Serve;
      assert reqs + more == reqs + front + [last] && reqs + [poll] + more == reqs + [poll] + front + [last];
      assert (reqs + front + [last])[..|reqs + front|] == reqs + front;
      assert (reqs + [poll] + front + [last])[..|reqs + [poll] + front|] == reqs + [poll] + front;
    }
  }

  /** Once a request was approved or expired, every later poll by anyone finds nothing. */
  lemma PolledRequestIsGone(
      env: Env, reqs: seq<Request>, first: Request, more: seq<Request>, again: Request,
      id: string, clientId: string, anyone: string)
    requires AuthServer.IsLawful(env) && id in Run(env, reqs).requests
    requires IsPoll(first, id, clientId) && IsPoll(again, id, anyone)
    requires Serve(env, Run(env, reqs), first).1.TokenGranted?
      || Serve(env, Run(env, reqs), first).1 == Refused(ExpiredToken)
    ensures var later := Run(env, reqs + [first] + more);
      Serve(env, later, again) == (later, Refused(InvalidGrant))
  {
    RunKeeps(env, reqs);
    var s := Run(env, reqs);
    OpenedIsMinted(env, s, id);
    NothingIsRevived(env, s, first);
    PollAnswers(env, s, first, id, clientId);
    assert (reqs + [first])[..|reqs|] == reqs;
    hide IsMinted, Serve, Inv;
    GoneForGood(env, reqs + [first], more, id, id);
    PollAnswers(env, Run(env, reqs + [first] + more), again, id, anyone);
  }

  // ----- token ids -----

  /** The number a run of lower-case hex digits denotes. */
  function HexNumber(s: string): int {
    if s == [] then 0 else 16 * HexNumber(s[..|s| - 1]) + Nibble(s[|s| - 1])
  }

  lemma HexDigitDenotes(d: nat)
    requires d < 16
    ensures IsLowerHex(HexDigit(d)) && Nibble(HexDigit(d)) == d
  {
  }

  lemma {:induction false} HexDigitsDenote(n: nat)
    ensures All(HexDigits(n), IsLowerHex) && HexNumber(HexDigits(n)) == n
  {
    hide HexDigit, Nibble, IsLowerHex;
    if n < 16 {
      HexDigitDenotes(n);
      assert HexDigits(n)[..0] == [];
    } else {
      HexDigitsDenote(n / 16);
      HexDigitDenotes(n % 16);
      assert HexDigits(n)[..|HexDigits(n / 16)|] == HexDigits(n / 16);
    }
  }

  lemma HexDigitsInjective(m: nat, n: nat)
    requires HexDigits(m) == HexDigits(n)
    ensures m == n
  {
    HexDigitsDenote(m);
    HexDigitsDenote(n);
  }

  lemma JtiInjective(iat: nat, m: nat, iat': nat, n: nat)
    requires Jti(iat, m) == Jti(iat', n)
    ensures iat == iat' && m == n
  {
    hide HexDigits, IndexOf;
    FirstIndex(HexDigits(iat), '-', HexDigits(m));
    FirstIndex(HexDigits(iat'), '-', HexDigits(n));
    var s := Jti(iat, m);
    assert s[..|HexDigits(iat)|] == HexDigits(iat) && s[|HexDigits(iat)| + 1..] == HexDigits(m);
    assert s[..|HexDigits(iat')|] == HexDigits(iat') && s[|HexDigits(iat')| + 1..] == HexDigits(n);
    HexDigitsInjective(iat, iat');
    HexDigitsInjective(m, n);
  }

  /** The token was numbered below `bound`. */
  ghost predicate IsNumbered(e: Event, bound: nat) {
    e.TokenIssued? && exists k: nat :: k < bound && e.claims.jti == Jti(e.claims.iat, k)
  }

  ghost predicate JtisOk(s: Server) {
    (forall i :: 0 <= i < |s.log| && s.log[i].TokenIssued? ==> IsNumbered(s.log[i], s.nextJti))
    && (forall i, j :: 0 <= i < j < |s.log| && s.log[i].TokenIssued? && s.log[j].TokenIssued? ==>
          s.log[i].claims.jti != s.log[j].claims.jti)
  }

  /** A request writes one numbered token, or one event that is none, or nothing. */
  lemma ServeNumbers(env: Env, s: Server, req: Request)
    ensures var s' := Serve(env, s, req).0;
      (s'.nextJti == s.nextJti && s'.log == s.log)
      || (|s'.log| == |s.log| + 1 && s'.log[..|s.log|] == s.log
          && var e := s'.log[|s.log|];
             if e.TokenIssued? then s'.nextJti == s.nextJti + 1 && e.claims.jti == Jti(e.claims.iat, s.nextJti)
             else s'.nextJti == s.nextJti)
  {
    hide Jti, ValidateScope, AuthorizeRefusal, RedemptionMatches, DecisionFor, PollRequests;
  }

  lemma ServeKeepsJtis(env: Env, s: Server, req: Request)
    requires JtisOk(s)
    ensures JtisOk(Serve(env, s, req).0)
  {
    var s' := Serve(env, s, req).0;
    ServeNumbers(env, s, req);
    hide Serve, Jti;
    if s'.log != s.log && s'.log[|s.log|].TokenIssued? {
      var e := s'.log[|s.log|];
      assert IsNumbered(e, s'.nextJti);
      forall i | 0 <= i < |s.log| && s.log[i].TokenIssued?
        ensures s'.log[i] == s.log[i] && IsNumbered(s.log[i], s'.nextJti) && s.log[i].claims.jti != e.claims.jti
      {
        assert s'.log[..|s.log|][i] == s.log[i];
        var k: nat :| k < s.nextJti && s.log[i].claims.jti == Jti(s.log[i].claims.iat, k);
        if s.log[i].claims.jti == e.claims.jti {
          JtiInjective(s.log[i].claims.iat, k, e.claims.iat, s.nextJti);
        }
      }
    } else if s'.log != s.log {
      assert forall i :: 0 <= i < |s.log| ==> s'.log[i] == s'.log[..|s.log|][i];
    }
  }

  lemma {:induction false} RunKeepsJtis(env: Env, reqs: seq<Request>)
    ensures JtisOk(Run(env, reqs))
  {
    if reqs != [] {
      RunKeepsJtis(env, reqs[..|reqs| - 1]);
      ServeKeepsJtis(env, Run(env, reqs[..|reqs| - 1]), reqs[|reqs| - 1]);
    }
  }

  /** No two tokens of any run share an id, and so no two are the same string. */
  lemma TokensAreUnique(c: Crypto, env: Env, reqs: seq<Request>, i: nat, j: nat)
    requires Jwt.IsLawful(c) && i < j < |Run(env, reqs).log|
    requires Run(env, reqs).log[i].TokenIssued? && Run(env, reqs).log[j].TokenIssued?
    ensures var (a, b) := (Run(env, reqs).log[i].claims, Run(env, reqs).log[j].claims);
      a.jti != b.jti && EncodeJwt(c, ClaimsJson(a)) != EncodeJwt(c, ClaimsJson(b))
  {
    RunKeepsJtis(env, reqs);
    var a, b := Run(env, reqs).log[i].claims, Run(env, reqs).log[j].claims;
    assert a.jti != b.jti;
    hide Run, EncodeJwt, ClaimsJson, JtisOk, Jwt.IsLawful;
    if EncodeJwt(c, ClaimsJson(a)) == EncodeJwt(c, ClaimsJson(b)) {
      SameTokenSameJti(c, a, b);
    }
  }

  lemma SameTokenSameJti(c: Crypto, a: AccessClaims, b: AccessClaims)
    requires Jwt.IsLawful(c) && EncodeJwt(c, ClaimsJson(a)) == EncodeJwt(c, ClaimsJson(b))
    ensures a.jti == b.jti
  {
    EncodingIsInjective(c, ClaimsJson(a), ClaimsJson(b));
    hide EncodeJwt;
    assert StringField(ClaimsJson(a), "jti") == Some(a.jti) && StringField(ClaimsJson(b), "jti") == Some(b.jti);
  }

  lemma EncodingIsInjective(c: Crypto, a: Json, b: Json)
    requires Jwt.IsLawful(c) && EncodeJwt(c, a) == EncodeJwt(c, b)
    ensures a == b
  {
    SegmentsOfJwt(c, a);
    SegmentsOfJwt(c, b);
    hide Split;
    assert c.parse(c.decode(c.encode(c.render(a))).value) == Some(a);
    assert c.parse(c.decode(c.encode(c.render(b))).value) == Some(b);
  }

  // ----- purposes, end to end -----

  /** Whatever the grant, a granted scope that claims to be a purpose is in the purpose grammar. */
  lemma GrantedPurposesAreWellFormed(env: Env, reqs: seq<Request>, i: nat, needed: string)
    requires AuthServer.IsLawful(env)
    requires i < |Run(env, reqs).log| && Run(env, reqs).log[i].TokenIssued?
    requires HasScope(Run(env, reqs).log[i].claims.scope, needed) && StartsWith(needed, DPV_PREFIX)
    ensures InGrammar(needed)
  {
    RunKeeps(env, reqs);
    var log := Run(env, reqs).log;
    hide Run, ValidateScope, InGrammar;
    assert IsEntitled(env, log[..i], log[i].grant, log[i].claims);
    ValidScopeGrantsGrammar(log[i].claims.scope, needed);
  }

  function IssuedClaims(log: seq<Event>): set<AccessClaims> {
    set e | e in log && e.TokenIssued? :: e.claims
  }

  /**
   From the wire back to the grammar: a token the verifier accepts was issued by a grant of this
   server, and any purpose it grants passed the gate.
   */
  lemma AcceptedPurposesAreWellFormed(
      c: Crypto, env: Env, reqs: seq<Request>, token: string, issuer: string, audience: string,
      now: nat, needed: string)
    requires AuthServer.IsLawful(env) && Jwt.IsLawful(c)
    requires IsUnforged(c, IssuedClaims(Run(env, reqs).log), token)
    requires VerifyToken(c, token, issuer, audience, now).Ok?
    requires HasScope(ScopeOf(VerifyToken(c, token, issuer, audience, now).value), needed)
    requires StartsWith(needed, DPV_PREFIX)
    ensures InGrammar(needed)
    ensures exists i ::
      && 0 <= i < |Run(env, reqs).log| && Run(env, reqs).log[i].TokenIssued?
      && VerifyToken(c, token, issuer, audience, now).value == ClaimsJson(Run(env, reqs).log[i].claims)
  {
    var log := Run(env, reqs).log;
    hide VerifyToken, Run, InGrammar, HasScope, IsUnforged;
    AcceptedWasIssued(c, IssuedClaims(log), token, issuer, audience, now);
    var a :| a in IssuedClaims(log) && VerifyToken(c, token, issuer, audience, now).value == ClaimsJson(a);
    assert ScopeOf(ClaimsJson(a)) == a.scope;
    var e :| e in log && e.TokenIssued? && e.claims == a;
    var i :| 0 <= i < |log| && log[i] == e;
    GrantedPurposesAreWellFormed(env, reqs, i, needed);
  }
}
