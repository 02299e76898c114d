/**
 Blockchain address bindings: the store is keyed by a hash of the bound triple, so duplicates are
 detected exactly when the hashed text determines the triple.
 */
module Bindings {
  import opened Decimal
  import opened Identifiers
  import opened Text
  import opened Uuid
  import opened Wrappers

  datatype Triple = Triple(phone: string, network: string, address: string)

  datatype BindRequest = BindRequest(
    triple: Triple, currency: Option<string>, nonce: Option<string>, signature: Option<string>)

  datatype Binding = Binding(id: string, address: string, network: string, currency: Option<string>)

  datatype Request = Bind(bind: BindRequest) | Delete(id: string)

  datatype Outcome =
    | InvalidArgument
    | Reserved(status: nat)
    | InvalidNetworkIdentifier
    | BothNonceSignatureRequired
    | UnsupportedEnhancedValidation
    | AlreadyExists
    | Created(id: string)
    | NoContent
    | NotFound

  // ----- validation -----

  predicate IsNetworkChar(c: char) {
    IsAlphanumeric(c) || c == '_' || c == '-'
  }

  predicate IsValidNetworkId(s: string) {
    var parts := Split(s, ':');
    |parts| == 2
    && parts[0] != "" && All(parts[0], IsNetworkChar)
    && parts[1] != "" && All(parts[1], IsNetworkChar)
  }

  predicate IsValidEvmAddress(s: string) {
    StartsWith(s, "0x") && |s| == 42 && All(s[2..], IsHexDigit)
  }

  /** The first validation that fails, in the order the handler applies them. */
  function Refusal(req: BindRequest): Option<Outcome> {
    if !IsValidE164(req.triple.phone) then Some(InvalidArgument)
    else if ReservedError(req.triple.phone).Some? then Some(Reserved(ReservedError(req.triple.phone).value))
    else if !IsValidNetworkId(req.triple.network) then Some(InvalidNetworkIdentifier)
    else if !IsValidEvmAddress(req.triple.address) then Some(InvalidArgument)
    else if req.nonce.Some? != req.signature.Some? then Some(BothNonceSignatureRequired)
    else if req.nonce.Some? then Some(UnsupportedEnhancedValidation)
    else None
  }

  // ----- the binding id -----

  const TAG := "bpa-binding:"

  function PreImage(t: Triple): string {
    TAG + (t.phone + [':'] + (t.network + [':'] + t.address))
  }

  type SixteenBytes = d: seq<Byte> | |d| == 16 witness seq(16, _ => 0)

  /** The first sixteen bytes of SHA-256, of which only what collides is ever assumed. */
  type Hash = string -> SixteenBytes

  function BindingId(hash: Hash, t: Triple): string {
    Render(hash(PreImage(t)))
  }

  predicate IsColonFree(t: Triple) {
    ':' !in t.phone && ':' !in t.address
  }

  lemma ValidIsColonFree(req: BindRequest)
    requires Refusal(req).None?
    ensures IsColonFree(req.triple)
  {
    assert req.triple.phone == "+" + req.triple.phone[1..];
    assert req.triple.address == "0x" + req.triple.address[2..];
  }

  lemma PreImageParts(t: Triple)
    requires IsColonFree(t)
    ensures var rest := PreImage(t)[|TAG|..];
      IndexOf(rest, ':') == |t.phone| && LastIndexOf(rest, ':') == |t.phone| + 1 + |t.network|
      && |rest| == |t.phone| + 1 + |t.network| + 1 + |t.address|
      && t.phone == rest[..|t.phone|]
      && t.network == rest[|t.phone| + 1..|t.phone| + 1 + |t.network|]
      && t.address == rest[|t.phone| + 1 + |t.network| + 1..]
  {
    hide IndexOf, LastIndexOf;
    var rest := t.phone + [':'] + (t.network + [':'] + t.address);
    assert PreImage(t)[|TAG|..] == rest;
    FirstIndex(t.phone, ':', t.network + [':'] + t.address);
    LastIndex(t.phone + [':'] + t.network, ':', t.address);
    assert rest == t.phone + [':'] + t.network + [':'] + t.address;
  }

  /** The hashed text determines the triple: neither end of it holds a colon, so the outer two colons separate. */
  lemma PreImageInjective(s: Triple, t: Triple)
    requires IsColonFree(s) && IsColonFree(t) && PreImage(s) == PreImage(t)
    ensures s == t
  {
    hide IndexOf, LastIndexOf;
    PreImageParts(s);
    PreImageParts(t);
  }

  // ----- runs of the two handlers -----

  type Store = map<string, Binding>

  function Step(hash: Hash, store: Store, req: Request): (Store, Outcome) {
    match req
    case Bind(b) =>
      var id := BindingId(hash, b.triple);
      if Refusal(b).Some? then (store, Refusal(b).value)
      else if id in store then (store, AlreadyExists)
      else (store[id := Binding(id, b.triple.address, b.triple.network, b.currency)], Created(id))
    case Delete(id) =>
      if id in store then (store - {id}, NoContent) else (store, NotFound)
  }

  function Run(hash: Hash, reqs: seq<Request>): Store {
    if reqs == [] then map[] else Step(hash, Run(hash, reqs[..|reqs| - 1]), reqs[|reqs| - 1]).0
  }

  /** The triples bound after `reqs`, kept as a set with no hashing involved in binding. */
  function Bound(hash: Hash, reqs: seq<Request>): set<Triple> {
    if reqs == [] then {}
    else
      var before := Bound(hash, reqs[..|reqs| - 1]);
      match reqs[|reqs| - 1]
      case Bind(b) => if Refusal(b).Some? then before else before + {b.triple}
      case Delete(id) => set t | t in before && BindingId(hash, t) != id
  }

  function Accepted(reqs: seq<Request>): set<Triple> {
    set req | req in reqs && req.Bind? && Refusal(req.bind).None? :: req.bind.triple
  }

  /** No two triples accepted during the run share a hash. */
  predicate CollisionFree(hash: Hash, reqs: seq<Request>) {
    forall s, t :: s in Accepted(reqs) && t in Accepted(reqs) && hash(PreImage(s)) == hash(PreImage(t))
      ==> PreImage(s) == PreImage(t)
  }

  lemma SameIdSameTriple(hash: Hash, reqs: seq<Request>, s: Triple, t: Triple)
    requires CollisionFree(hash, reqs) && s in Accepted(reqs) && t in Accepted(reqs)
    requires BindingId(hash, s) == BindingId(hash, t)
    ensures s == t
  {
    hide Render, PreImage, Refusal;
    RenderInjective(hash(PreImage(s)), hash(PreImage(t)));
    var r :| r in reqs && r.Bind? && Refusal(r.bind).None? && r.bind.triple == s;
    var q :| q in reqs && q.Bind? && Refusal(q.bind).None? && q.bind.triple == t;
    ValidIsColonFree(r.bind);
    ValidIsColonFree(q.bind);
    PreImageInjective(s, t);
  }

  lemma PrefixAccepted(hash: Hash, reqs: seq<Request>, more: Request)
    ensures Accepted(reqs) <= Accepted(reqs + [more])
    ensures CollisionFree(hash, reqs + [more]) ==> CollisionFree(hash, reqs)
    ensures more.Bind? && Refusal(more.bind).None? ==> more.bind.triple in Accepted(reqs + [more])
  {
    hide Refusal, PreImage;
    assert forall r :: r in reqs ==> r in reqs + [more];
    assert more in reqs + [more];
  }

  /** After any run the stored ids are exactly the ids of the bound triples. */
  lemma {:induction false} StoreHoldsBound(hash: Hash, reqs: seq<Request>)
    requires CollisionFree(hash, reqs)
    ensures Bound(hash, reqs) <= Accepted(reqs)
    ensures Run(hash, reqs).Keys == set t | t in Bound(hash, reqs) :: BindingId(hash, t)
  {
    hide BindingId, Refusal;
    if reqs != [] {
      var prefix, last := reqs[..|reqs| - 1], reqs[|reqs| - 1];
      assert reqs == prefix + [last];
      PrefixAccepted(hash, prefix, last);
      StoreHoldsBound(hash, prefix);
      assert last.Delete? ==> Run(hash, reqs).Keys == Run(hash, prefix).Keys - {last.id};
      assert last.Bind? && Refusal(last.bind).None? ==>
        Run(hash, reqs).Keys == Run(hash, prefix).Keys + {BindingId(hash, last.bind.triple)};
    }
  }

  /** A valid bind is refused as a duplicate if and only if that very triple is bound at the time. */
  lemma DuplicateIffBound(hash: Hash, reqs: seq<Request>, b: BindRequest)
    requires Refusal(b).None? && CollisionFree(hash, reqs + [Bind(b)])
    ensures Step(hash, Run(hash, reqs), Bind(b)).1
         == if b.triple in Bound(hash, reqs) then AlreadyExists else Created(BindingId(hash, b.triple))
  {
    hide BindingId, Refusal;
    var all := reqs + [Bind(b)];
    PrefixAccepted(hash, reqs, Bind(b));
    StoreHoldsBound(hash, reqs);
    var id := BindingId(hash, b.triple);
    if id in Run(hash, reqs) {
      var t :| t in Bound(hash, reqs) && BindingId(hash, t) == id;
      SameIdSameTriple(hash, all, t, b.triple);
    }
  }

  /** Deleting a bound triple's id succeeds, unbinds that triple and no other, and lets it be bound again. */
  lemma DeletedIsBindableAgain(hash: Hash, reqs: seq<Request>, b: BindRequest)
    requires Refusal(b).None? && CollisionFree(hash, reqs) && b.triple in Bound(hash, reqs)
    ensures var id := BindingId(hash, b.triple);
      var after := reqs + [Delete(id)];
      Step(hash, Run(hash, reqs), Delete(id)).1 == NoContent
      && Bound(hash, after) == Bound(hash, reqs) - {b.triple}
      && Step(hash, Run(hash, after), Bind(b)).1 == Created(id)
  {
    hide BindingId, Refusal;
    var id := BindingId(hash, b.triple);
    var after := reqs + [Delete(id)];
    assert after[..|after| - 1] == reqs;
    StoreHoldsBound(hash, reqs);
    forall t | t in Bound(hash, reqs) && BindingId(hash, t) == id ensures t == b.triple {
      SameIdSameTriple(hash, reqs, t, b.triple);
    }
  }

  // ----- which requests pass -----

  predicate IsPhoneNumber(s: string) {
    6 <= |s| <= 16 && s[0] == '+' && '1' <= s[1] <= '9' && forall i :: 1 <= i < |s| ==> '0' <= s[i] <= '9'
  }

  const RESERVED_TAILS: set<string> := {"400", "401", "403", "404", "409", "422", "429", "500", "503"}

  function Tail(s: string): string {
    if |s| < 3 then s else s[|s| - 3..]
  }

  predicate IsLetterDigitOr(c: char, others: string) {
    'a' <= c <= 'z' || 'A' <= c <= 'Z' || '0' <= c <= '9' || c in others
  }

  predicate IsTwoNames(s: string, ecosystem: string, sub: string) {
    s == ecosystem + ":" + sub && ecosystem != "" && sub != ""
    && (forall i :: 0 <= i < |ecosystem| ==> IsLetterDigitOr(ecosystem[i], "_-"))
    && (forall i :: 0 <= i < |sub| ==> IsLetterDigitOr(sub[i], "_-"))
  }

  ghost predicate IsNetwork(s: string) {
    exists ecosystem, sub :: IsTwoNames(s, ecosystem, sub)
  }

  predicate IsEvmAddress(s: string) {
    |s| == 42 && s[0] == '0' && s[1] == 'x'
    && forall i :: 2 <= i < 42 ==> '0' <= s[i] <= '9' || 'a' <= s[i] <= 'f' || 'A' <= s[i] <= 'F'
  }

  lemma PhoneIsChecked(s: string)
    ensures IsValidE164(s) <==> IsPhoneNumber(s)
  {
    if IsPhoneNumber(s) {
      assert "+" <= s;
    }
    if IsValidE164(s) {
      assert forall i :: 1 <= i < |s| ==> s[i] == s[1..][i - 1];
    }
  }

  lemma EvmIsChecked(s: string)
    ensures IsValidEvmAddress(s) <==> IsEvmAddress(s)
  {
    if IsEvmAddress(s) {
      assert s[..2] == "0x";
    }
    if IsValidEvmAddress(s) {
      assert forall i :: 2 <= i < |s| ==> s[i] == s[2..][i - 2];
    }
  }

  lemma NetworkIsChecked(s: string)
    ensures IsValidNetworkId(s) <==> IsNetwork(s)
  {
    hide Split;
    if IsValidNetworkId(s) {
      var p := Split(s, ':');
      SplitThenJoin(s, ':');
      assert Join(p[1..], ':') == p[1] && Join(p, ':') == p[0] + [':'] + p[1];
      assert IsTwoNames(s, p[0], p[1]);
    }
    if IsNetwork(s) {
      var a, b :| IsTwoNames(s, a, b);
      var p := [a, b];
      assert Join(p[1..], ':') == b && Join(p, ':') == s;
      JoinThenSplit(p, ':');
    }
  }

  /** The number three digits denote. */
  function Three(s: string): int
    requires |s| == 3
  {
    100 * (s[0] as int - 48) + 10 * (s[1] as int - 48) + (s[2] as int - 48)
  }

  lemma ThreeDigits(s: string)
    requires |s| == 3 && All(s, IsDigit)
    ensures Value(s) == Three(s)
  {
    assert Value(s) == 10 * Value(s[..2]) + (s[2] as int - 48);
    assert Value(s[..2]) == 10 * Value(s[..2][..1]) + (s[1] as int - 48);
    assert Value(s[..2][..1]) == 10 * Value(s[..2][..1][..0]) + (s[0] as int - 48);
  }

  lemma TailsByNumber(s: string)
    requires |s| == 3 && All(s, IsDigit)
    ensures s in RESERVED_TAILS <==> Three(s) in {400, 401, 403, 404, 409, 422, 429, 500, 503}
  {
    assert s == [s[0], s[1], s[2]];
    assert forall i :: 0 <= i < 3 ==> IsDigit(s[i]);
    if Three(s) in {400, 401, 403, 404, 409, 422, 429, 500, 503} {
      assert s[0] == '4' || s[0] == '5';
      assert s[1] == '0' || s[1] == '2';
    }
  }

  lemma ReservedTail(s: string)
    requires IsPhoneNumber(s)
    ensures ReservedError(s).Some? <==> Tail(s) in RESERVED_TAILS
    ensures ReservedError(s).Some? ==> ReservedError(s).value == Three(Tail(s))
  {
    PhoneIsChecked(s);
    AllDigits(s[1..]);
    assert DigitsOf(s) == s[1..];
    assert s[1..][|s[1..]| - 3..] == Tail(s);
    assert All(Tail(s), IsDigit);
    hide DigitsOf, IsPhoneNumber;
    ThreeDigits(Tail(s));
    TailsByNumber(Tail(s));
    hide Value, Three;
  }

  /** Exactly which bind requests pass, what each other one is told, and what a bound address is stored as. */
  lemma BindAnswer(hash: Hash, store: Store, b: BindRequest)
    ensures var (store', reply) := Step(hash, store, Bind(b));
      var (t, id) := (b.triple, BindingId(hash, b.triple));
      if !IsPhoneNumber(t.phone) then store' == store && reply == InvalidArgument
      else if Tail(t.phone) in RESERVED_TAILS then
        store' == store && reply.Reserved? && reply.status == Three(Tail(t.phone))
      else if !IsNetwork(t.network) then store' == store && reply == InvalidNetworkIdentifier
      else if !IsEvmAddress(t.address) then store' == store && reply == InvalidArgument
      else if b.nonce.Some? != b.signature.Some? then store' == store && reply == BothNonceSignatureRequired
      else if b.nonce.Some? then store' == store && reply == UnsupportedEnhancedValidation
      else if id in store then store' == store && reply == AlreadyExists
      else reply == Created(id) && store'.Keys == store.Keys + {id}
           && (forall k :: k in store ==> store'[k] == store[k])
           && store'[id].id == id && store'[id].address == t.address && store'[id].network == t.network
           && store'[id].currency == b.currency
  {
    PhoneIsChecked(b.triple.phone);
    NetworkIsChecked(b.triple.network);
    EvmIsChecked(b.triple.address);
    if IsPhoneNumber(b.triple.phone) {
      ReservedTail(b.triple.phone);
    }
    hide IsPhoneNumber, IsValidE164, IsNetwork, IsValidNetworkId, IsEvmAddress, IsValidEvmAddress;
    hide ReservedError, Tail, Three, BindingId;
  }

  // ----- the store and its handlers, in place -----

  class BindingStore {
    const hash: Hash
    var bindings: Store
    ghost var served: seq<Request>

    constructor (hash: Hash)
      ensures this.hash == hash && Valid() && served == []
    {
      this.hash := hash;
      bindings, served := map[], [];
    }

    /** The bindings are those the requests served so far lead to. */
    ghost predicate Valid()
      reads this
    {
      bindings == Run(hash, served)
    }

    ghost method Remember(before: Store, req: Request)
      requires before == Run(hash, served) && bindings == Step(hash, before, req).0
      modifies this`served
      ensures Valid() && served == old(served) + [req]
    {
      assert (served + [req])[..|served|] == served;
      served := served + [req];
    }

    /** Check and insert under one lock hold. */
    method Insert(id: string, binding: Binding) returns (inserted: bool)
      modifies this`bindings
      ensures inserted == (id !in old(bindings))
      ensures bindings == if inserted then old(bindings)[id := binding] else old(bindings)
    {
      if id in bindings {
        return false;
      }
      bindings := bindings[id := binding];
      return true;
    }

    method Remove(id: string) returns (removed: bool)
      modifies this`bindings
      ensures removed == (id in old(bindings))
      ensures bindings == if removed then old(bindings) - {id} else old(bindings)
    {
      removed := id in bindings;
      if removed {
        bindings := bindings - {id};
      }
    }

    method BindAddress(req: BindRequest) returns (outcome: Outcome)
      requires Valid()
      modifies this
      ensures Valid() && served == old(served) + [Bind(req)]
      ensures (bindings, outcome) == Step(hash, old(bindings), Bind(req))
    {
      ghost var before := bindings;
      var refusal := Refusal(req);
      if refusal.Some? {
        Remember(before, Bind(req));
        return refusal.value;
      }
      var id := BindingId(hash, req.triple);
      var inserted := Insert(id, Binding(id, req.triple.address, req.triple.network, req.currency));
      outcome := if inserted then Created(id) else AlreadyExists;
      Remember(before, Bind(req));
    }

    method DeleteAddress(id: string) returns (outcome: Outcome)
      requires Valid()
      modifies this
      ensures Valid() && served == old(served) + [Delete(id)]
      ensures (bindings, outcome) == Step(hash, old(bindings), Delete(id))
    {
      ghost var before := bindings;
      var removed := Remove(id);
      outcome := if removed then NoContent else NotFound;
      Remember(before, Delete(id));
    }
  }
}
