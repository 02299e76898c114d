/** What every reachable state of the interleaved payment handlers satisfies. */
module PaymentInvariant {
  import opened PaymentHandlers
  import opened PaymentStore
  import opened Wrappers

  // ----- what a thread is responsible for -----

  /** The payment a create or prepare handler in flight has minted. */
  function Prepares(a: Activation): Option<string> {
    match a
    case Creating(id, _, _) => Some(id)
    case Preparing(id, _, _, _) => Some(id)
    case Announcing(event, _) => Some(event.paymentId)
    case Stashing(id, _, _) => Some(id)
    case Awaiting(id, _) => Some(id)
    case _ => None
  }

  /** The validation a prepare handler in flight has still to register. */
  function Owes(a: Activation): Option<Validation> {
    match a
    case Preparing(_, _, _, validation) => validation
    case Announcing(_, validation) => validation
    case Stashing(_, _, validation) => validation
    case Awaiting(_, validation) => Some(validation)
    case _ => None
  }

  /** The payment whose sink this thread holds, to stash it or to deliver a terminal event to it. */
  function Carries(a: Activation): Option<(string, Target)> {
    match a
    case Creating(id, _, given) => if given.Some? then Some((id, given.value)) else None
    case Preparing(id, _, given, _) => if given.Some? then Some((id, given.value)) else None
    case Announcing(event, _) => Some((event.paymentId, event.target))
    case Stashing(id, target, _) => Some((id, target))
    case Emitting(event) => Some((event.paymentId, event.target))
    case _ => None
  }

  predicate CarriesFor(a: Activation, id: string) {
    Carries(a).Some? && Carries(a).value.0 == id
  }

  predicate OwesFor(a: Activation, id: string) {
    Prepares(a) == Some(id) && Owes(a).Some?
  }

  // ----- the invariant, part by part -----

  ghost predicate IsIssued(mint: Mint, counter: nat, id: string) {
    exists k: nat :: k < counter && mint(k) == id
  }

  /** A payment's own fields agree with its status. */
  predicate IsWellFormed(id: string, p: Payment) {
    p.paymentId == id
    && (p.paymentDate.Some? <==> p.status == Succeeded)
    && (p.authorizationId.Some? <==> p.status == PendingValidation)
  }

  predicate Matches(p: Payment, v: Validation) {
    p.status == PendingValidation && p.authorizationId == Some(v.authorizationId)
  }

  ghost predicate PaymentsOk(mint: Mint, s: System) {
    forall id :: id in s.store.payments ==>
      IsIssued(mint, s.counter, id) && IsWellFormed(id, s.store.payments[id])
  }

  /** At every instant the pending map lies inside the payments awaiting validation. */
  predicate PendingOk(s: System) {
    forall id :: id in s.store.pending ==>
      id in s.store.payments && Matches(s.store.payments[id], s.store.pending[id])
      && 1 <= s.store.pending[id].attemptsLeft <= VALIDATION_ATTEMPTS
  }

  predicate IsOwed(s: System, id: string) {
    exists i :: 0 <= i < |s.threads| && OwesFor(s.threads[i], id)
  }

  /** A payment awaiting validation is in the pending map, or its prepare handler is still on its way there. */
  predicate AwaitedOk(s: System) {
    forall id :: id in s.store.payments && s.store.payments[id].status == PendingValidation ==>
      id in s.store.pending || IsOwed(s, id)
  }

  ghost predicate ThreadOk(mint: Mint, s: System, a: Activation) {
    (Prepares(a).Some? ==>
      var id := Prepares(a).value;
      IsIssued(mint, s.counter, id) && id !in s.store.pending
      && (Owes(a).Some? ==> Owes(a).value.attemptsLeft == VALIDATION_ATTEMPTS)
      && match a
         case Creating(_, p, _) => id !in s.store.payments && IsWellFormed(id, p) && p.status == Succeeded
         case Preparing(_, p, _, v) => id !in s.store.payments && IsWellFormed(id, p)
           && if v.Some? then Matches(p, v.value) else p.status == Reserved
         case _ => (id in s.store.payments
           && if Owes(a).Some? then Matches(s.store.payments[id], Owes(a).value)
              else s.store.payments[id].status != PendingValidation))
    && match a
       case Announcing(e, _) => !IsTerminal(e.kind)
       case Calling(call) => IsRequestCall(call)
       case Taking(id, k) => IsTerminal(k) && id in s.store.payments && s.store.payments[id].status == StatusOf(k)
       case Emitting(e) => IsTerminal(e.kind) && e.paymentId in s.store.payments
         && s.store.payments[e.paymentId].status == StatusOf(e.kind)
       case _ => true
  }

  ghost predicate ThreadsOk(mint: Mint, s: System) {
    forall i :: 0 <= i < |s.threads| ==> ThreadOk(mint, s, s.threads[i])
  }

  predicate PreparersDistinct(s: System) {
    forall i, j :: 0 <= i < j < |s.threads| && Prepares(s.threads[i]).Some? ==>
      Prepares(s.threads[i]) != Prepares(s.threads[j])
  }

  predicate IsCarried(s: System, id: string) {
    exists i :: 0 <= i < |s.threads| && CarriesFor(s.threads[i], id)
  }

  ghost predicate GivenIssued(mint: Mint, s: System) {
    forall id :: id in s.given ==> IsIssued(mint, s.counter, id)
  }

  predicate IsGiven(given: map<string, Target>, a: Activation) {
    Carries(a).Some? ==> Carries(a).value.0 in given && given[Carries(a).value.0] == Carries(a).value.1
  }

  /** Every sink in the system is the one its payment's request gave. */
  predicate SinksGiven(s: System) {
    (forall id :: id in s.store.notify ==> id in s.given && s.store.notify[id] == s.given[id])
    && (forall i :: 0 <= i < |s.threads| ==> IsGiven(s.given, s.threads[i]))
    && (forall i :: 0 <= i < |s.log| ==>
          s.log[i].paymentId in s.given && s.log[i].target == s.given[s.log[i].paymentId])
  }

  predicate NotifyOk(s: System) {
    forall id :: id in s.store.notify ==> id in s.store.payments
  }

  predicate CarriersDistinct(s: System) {
    forall i, j :: 0 <= i < j < |s.threads| && Carries(s.threads[i]).Some? ==>
      !CarriesFor(s.threads[j], Carries(s.threads[i]).value.0)
  }

  /**
   A sink that was given is never copied or dropped: it is with one thread, or in the notify map, or
   spent on one terminal event.
   */
  predicate SinkConserved(s: System, id: string) {
    if id !in s.given then TerminalEvents(s.log, id) == 0
    else if TerminalEvents(s.log, id) == 0 then IsCarried(s, id) != (id in s.store.notify)
    else TerminalEvents(s.log, id) == 1 && !IsCarried(s, id) && id !in s.store.notify
  }

  ghost predicate SinksConserved(s: System) {
    forall id :: SinkConserved(s, id)
  }

  /** A terminal event names the status its payment settled in. */
  predicate LogOk(s: System) {
    forall i :: 0 <= i < |s.log| && IsTerminal(s.log[i].kind) ==>
      s.log[i].paymentId in s.store.payments
      && s.store.payments[s.log[i].paymentId].status == StatusOf(s.log[i].kind)
  }

  /** A payment is confirmed or cancelled successfully at most once, and only from `reserved`. */
  ghost predicate WinsOk(s: System) {
    forall id :: s.wins[id] > 0 ==>
      s.wins[id] == 1 && id in s.store.payments && s.store.payments[id].status in {Succeeded, Cancelled}
  }

  ghost predicate Inv(mint: Mint, s: System) {
    PaymentsOk(mint, s) && PendingOk(s) && AwaitedOk(s) && ThreadsOk(mint, s) && PreparersDistinct(s)
    && GivenIssued(mint, s) && SinksGiven(s) && CarriersDistinct(s) && SinksConserved(s) && LogOk(s) && WinsOk(s)
    && NotifyOk(s)
  }

  // ----- one step -----

  lemma InitOk(mint: Mint, n: nat)
    ensures Inv(mint, Init(n))
  {
  }

  lemma FreshIsNew(mint: Mint, counter: nat, k: nat)
    requires IsInjective(mint) && counter <= k
    ensures !IsIssued(mint, counter, mint(k)) && IsIssued(mint, k + 1, mint(k))
  {
  }

  /** Replacing one thread moves only what that thread owed and carried. */
  lemma ReplaceThread(s: System, s': System, t: nat)
    requires PreparersDistinct(s) && CarriersDistinct(s)
    requires t < |s.threads| == |s'.threads| && s'.threads == s.threads[t := s'.threads[t]]
    ensures forall id :: IsOwed(s', id) <==>
      OwesFor(s'.threads[t], id) || (IsOwed(s, id) && !OwesFor(s.threads[t], id))
    ensures forall id :: IsCarried(s', id) <==>
      CarriesFor(s'.threads[t], id) || (IsCarried(s, id) && !CarriesFor(s.threads[t], id))
  {
    hide Prepares, Owes, Carries;
    forall id ensures IsOwed(s', id) <==> OwesFor(s'.threads[t], id) || (IsOwed(s, id) && !OwesFor(s.threads[t], id)) {
      if IsOwed(s, id) {
        var i :| 0 <= i < |s.threads| && OwesFor(s.threads[i], id);
        assert i != t ==> OwesFor(s'.threads[i], id);
      }
    }
    forall id
      ensures IsCarried(s', id)
         <==> CarriesFor(s'.threads[t], id) || (IsCarried(s, id) && !CarriesFor(s.threads[t], id))
    {
      if IsCarried(s, id) {
        var i :| 0 <= i < |s.threads| && CarriesFor(s.threads[i], id);
        assert i != t ==> CarriesFor(s'.threads[i], id);
      }
    }
  }

  /** A minted id is new to everything, and everything issued stays issued. */
  lemma MintIsFresh(mint: Mint, s: System, k: nat)
    requires IsInjective(mint) && PaymentsOk(mint, s) && PendingOk(s) && ThreadsOk(mint, s)
    requires GivenIssued(mint, s) && SinksGiven(s)
    requires s.counter <= k
    ensures var id := mint(k);
      id !in s.store.payments && id !in s.store.pending && id !in s.store.notify && id !in s.given
      && forall i :: 0 <= i < |s.threads| ==> Prepares(s.threads[i]) != Some(id) && !CarriesFor(s.threads[i], id)
  {
    FreshIsNew(mint, s.counter, k);
    hide IsIssued;
    forall i | 0 <= i < |s.threads|
      ensures Prepares(s.threads[i]) != Some(mint(k)) && !CarriesFor(s.threads[i], mint(k)) {
      assert ThreadOk(mint, s, s.threads[i]);
    }
  }

  lemma StaysIssued(mint: Mint, counter: nat, more: nat)
    requires counter <= more
    ensures forall id :: IsIssued(mint, counter, id) ==> IsIssued(mint, more, id)
  {
  }

  lemma ThreadStaysOk(mint: Mint, s: System, s': System, a: Activation)
    requires ThreadOk(mint, s, a) && s'.store == s.store && s.counter <= s'.counter
    ensures ThreadOk(mint, s', a)
  {
    StaysIssued(mint, s.counter, s'.counter);
    hide IsIssued;
  }

  lemma NewThreadOk(mint: Mint, s: System, t: nat, req: Request)
    requires IsInjective(mint) && PaymentsOk(mint, s) && PendingOk(s) && ThreadsOk(mint, s)
    requires GivenIssued(mint, s) && SinksGiven(s)
    requires t < |s.threads| && s.threads[t] == Idle
    ensures ThreadOk(mint, Begin(mint, s, t, req), Begin(mint, s, t, req).threads[t])
  {
    MintIsFresh(mint, s, s.counter);
    IssuedAfterBegin(mint, s, t, req);
    hide IsIssued, ThreadsOk, PaymentsOk, PendingOk, GivenIssued, SinksGiven;
  }

  lemma BeginThreads(mint: Mint, s: System, t: nat, req: Request)
    requires Inv(mint, s) && IsInjective(mint) && t < |s.threads| && s.threads[t] == Idle
    ensures ThreadsOk(mint, Begin(mint, s, t, req))
  {
    var s' := Begin(mint, s, t, req);
    NewThreadOk(mint, s, t, req);
    hide ThreadOk;
    forall i | 0 <= i < |s'.threads| ensures ThreadOk(mint, s', s'.threads[i]) {
      if i != t {
        ThreadStaysOk(mint, s, s', s.threads[i]);
      }
    }
  }

  lemma IssuedAfterBegin(mint: Mint, s: System, t: nat, req: Request)
    requires t < |s.threads|
    ensures var s' := Begin(mint, s, t, req);
      s'.counter == s.counter || IsIssued(mint, s'.counter, mint(s.counter))
  {
  }

  lemma NewThreadDistinct(s: System, s': System, t: nat, id: string)
    requires PreparersDistinct(s) && CarriersDistinct(s) && t < |s.threads| == |s'.threads|
    requires s'.threads == s.threads[t := s'.threads[t]]
    requires Prepares(s'.threads[t]).None? || Prepares(s'.threads[t]) == Some(id)
    requires Carries(s'.threads[t]).None? || Carries(s'.threads[t]).value.0 == id
    requires forall i :: 0 <= i < |s.threads| ==> Prepares(s.threads[i]) != Some(id) && !CarriesFor(s.threads[i], id)
    ensures PreparersDistinct(s') && CarriersDistinct(s')
  {
    hide Prepares, Carries;
  }

  lemma BeginDistinct(mint: Mint, s: System, t: nat, req: Request)
    requires Inv(mint, s) && IsInjective(mint) && t < |s.threads| && s.threads[t] == Idle
    ensures PreparersDistinct(Begin(mint, s, t, req)) && CarriersDistinct(Begin(mint, s, t, req))
  {
    var s' := Begin(mint, s, t, req);
    MintIsFresh(mint, s, s.counter);
    hide Inv, IsIssued, SinksConserved, SinksGiven, AwaitedOk, ThreadsOk, PaymentsOk, PendingOk;
    assert s'.threads == s.threads[t := s'.threads[t]];
    if s' != s {
      NewThreadDistinct(s, s', t, mint(s.counter));
    }
  }

  /** A create or prepare request changes nothing but its own thread and the record of sinks given. */
  predicate Registers(s: System, s': System, t: nat, id: string, target: Option<Target>) {
    t < |s.threads| == |s'.threads| && s.counter < s'.counter
    && s'.store == s.store && s'.log == s.log && s'.given == Record(s.given, id, target)
    && s'.threads == s.threads[t := s'.threads[t]]
    && Carries(s'.threads[t]) == if target.Some? then Some((id, target.value)) else None
  }

  lemma BeginShape(mint: Mint, s: System, t: nat, req: Request)
    requires t < |s.threads| && s.threads[t] == Idle
    ensures var s' := Begin(mint, s, t, req);
      if req.OnPayment? then s' == s || s' == s.(threads := s.threads[t := Calling(req.call)])
      else Registers(s, s', t, mint(s.counter), req.target)
  {
  }

  lemma RegisterTargets(mint: Mint, s: System, s': System, t: nat, id: string, target: Option<Target>)
    requires Registers(s, s', t, id, target) && id !in s.given && IsIssued(mint, s'.counter, id)
    requires GivenIssued(mint, s) && SinksGiven(s)
    ensures GivenIssued(mint, s') && SinksGiven(s')
  {
    StaysIssued(mint, s.counter, s'.counter);
    hide IsIssued, Carries;
    assert GivenIssued(mint, s');
    forall i | 0 <= i < |s'.threads| ensures IsGiven(s'.given, s'.threads[i]) {
      assert i != t ==> IsGiven(s.given, s.threads[i]);
    }
  }

  lemma BeginTargets(mint: Mint, s: System, t: nat, req: Request)
    requires Inv(mint, s) && IsInjective(mint) && t < |s.threads| && s.threads[t] == Idle
    ensures GivenIssued(mint, Begin(mint, s, t, req)) && SinksGiven(Begin(mint, s, t, req))
  {
    var s' := Begin(mint, s, t, req);
    BeginShape(mint, s, t, req);
    IssuedAfterBegin(mint, s, t, req);
    MintIsFresh(mint, s, s.counter);
    if !req.OnPayment? {
      RegisterTargets(mint, s, s', t, mint(s.counter), req.target);
    }
  }

  lemma BeginConserves(mint: Mint, s: System, t: nat, req: Request)
    requires Inv(mint, s) && IsInjective(mint) && t < |s.threads| && s.threads[t] == Idle
    ensures SinksConserved(Begin(mint, s, t, req))
  {
    var s' := Begin(mint, s, t, req);
    BeginShape(mint, s, t, req);
    MintIsFresh(mint, s, s.counter);
    hide Begin, Inv, GivenIssued, SinksGiven;
    RegisterConserves(s, s', t, mint(s.counter), req);
  }

  lemma RegisterConserves(s: System, s': System, t: nat, minted: string, req: Request)
    requires PreparersDistinct(s) && CarriersDistinct(s) && SinksConserved(s) && t < |s.threads| && s.threads[t] == Idle
    requires minted !in s.given && minted !in s.store.notify
    requires forall i :: 0 <= i < |s.threads| ==> !CarriesFor(s.threads[i], minted)
    requires if req.OnPayment? then s' == s || s' == s.(threads := s.threads[t := Calling(req.call)])
             else Registers(s, s', t, minted, req.target)
    ensures SinksConserved(s')
  {
    ReplaceThread(s, s', t);
    assert !IsCarried(s, minted);
    hide IsCarried, CarriersDistinct, PreparersDistinct;
    forall id ensures SinkConserved(s', id) {
      assert SinkConserved(s, id);
    }
  }

  lemma BeginKeeps(mint: Mint, s: System, t: nat, req: Request)
    requires Inv(mint, s) && IsInjective(mint) && t < |s.threads| && s.threads[t] == Idle
    ensures Inv(mint, Begin(mint, s, t, req))
  {
    BeginThreads(mint, s, t, req);
    BeginDistinct(mint, s, t, req);
    BeginTargets(mint, s, t, req);
    BeginConserves(mint, s, t, req);
    BeginAwaited(mint, s, t, req);
    BeginRest(mint, s, t, req);
    hide Begin, PaymentsOk, PendingOk, AwaitedOk, ThreadsOk, GivenIssued, SinksConserved, SinksGiven, LogOk, WinsOk;
    hide CarriersDistinct, PreparersDistinct, NotifyOk;
  }

  lemma BeginRest(mint: Mint, s: System, t: nat, req: Request)
    requires PaymentsOk(mint, s) && PendingOk(s) && LogOk(s) && WinsOk(s) && NotifyOk(s) && t < |s.threads|
    ensures var s' := Begin(mint, s, t, req);
      PaymentsOk(mint, s') && PendingOk(s') && LogOk(s') && WinsOk(s') && NotifyOk(s')
  {
    StaysIssued(mint, s.counter, Begin(mint, s, t, req).counter);
    hide IsIssued;
  }

  lemma BeginAwaited(mint: Mint, s: System, t: nat, req: Request)
    requires AwaitedOk(s) && PreparersDistinct(s) && CarriersDistinct(s) && t < |s.threads| && s.threads[t] == Idle
    ensures AwaitedOk(Begin(mint, s, t, req))
  {
    ReplaceThread(s, Begin(mint, s, t, req), t);
  }

  lemma DeliverKeeps(mint: Mint, s: System, t: nat, req: Request)
    requires Inv(mint, s) && t < |s.threads| && (s.threads[t].Announcing? || s.threads[t].Emitting?)
    ensures Inv(mint, Step(mint, s, t, req))
  {
    StaysIssued(mint, s.counter, s.counter + 1);
    DeliverAwaited(mint, s, t, req);
    DeliverConserves(mint, s, t, req);
    DeliverTargets(mint, s, t, req);
    DeliverThreads(mint, s, t, req);
    hide IsIssued, AwaitedOk, ThreadsOk, SinksConserved, SinksGiven, CarriersDistinct, PreparersDistinct;
  }

  lemma DeliverThreads(mint: Mint, s: System, t: nat, req: Request)
    requires Inv(mint, s) && t < |s.threads| && (s.threads[t].Announcing? || s.threads[t].Emitting?)
    ensures ThreadsOk(mint, Step(mint, s, t, req)) && LogOk(Step(mint, s, t, req))
  {
    var s' := Step(mint, s, t, req);
    StaysIssued(mint, s.counter, s.counter + 1);
    assert ThreadOk(mint, s, s.threads[t]);
    hide IsIssued, AwaitedOk, SinksConserved, SinksGiven, CarriersDistinct, PreparersDistinct;
    forall i | 0 <= i < |s'.threads| ensures ThreadOk(mint, s', s'.threads[i]) {
      assert ThreadOk(mint, s, s.threads[i]);
    }
  }

  lemma DeliverTargets(mint: Mint, s: System, t: nat, req: Request)
    requires GivenIssued(mint, s) && SinksGiven(s) && CarriersDistinct(s) && PreparersDistinct(s)
    requires t < |s.threads| && (s.threads[t].Announcing? || s.threads[t].Emitting?)
    ensures GivenIssued(mint, Step(mint, s, t, req)) && SinksGiven(Step(mint, s, t, req))
    ensures CarriersDistinct(Step(mint, s, t, req)) && PreparersDistinct(Step(mint, s, t, req))
  {
    StaysIssued(mint, s.counter, s.counter + 1);
    hide IsIssued;
    assert IsGiven(s.given, s.threads[t]) && Carries(s.threads[t]).Some?;
  }

  lemma DeliverAwaited(mint: Mint, s: System, t: nat, req: Request)
    requires AwaitedOk(s) && PreparersDistinct(s) && CarriersDistinct(s)
    requires t < |s.threads| && (s.threads[t].Announcing? || s.threads[t].Emitting?)
    ensures AwaitedOk(Step(mint, s, t, req))
  {
    ReplaceThread(s, Step(mint, s, t, req), t);
  }

  lemma DeliverConserves(mint: Mint, s: System, t: nat, req: Request)
    requires ThreadsOk(mint, s) && PreparersDistinct(s) && CarriersDistinct(s) && SinksConserved(s) && SinksGiven(s)
    requires t < |s.threads| && (s.threads[t].Announcing? || s.threads[t].Emitting?)
    ensures SinksConserved(Step(mint, s, t, req))
  {
    var s' := Step(mint, s, t, req);
    var e := s.threads[t].event;
    assert ThreadOk(mint, s, s.threads[t]);
    assert IsGiven(s.given, s.threads[t]) && e.paymentId in s.given;
    hide ThreadOk, SinksGiven;
    assert CarriesFor(s.threads[t], e.paymentId) && IsCarried(s, e.paymentId);
    assert s'.log[..|s'.log| - 1] == s.log;
    ReplaceThread(s, s', t);
    hide IsCarried;
    forall id ensures SinkConserved(s', id) {
      assert SinkConserved(s, id);
    }
  }

  // ----- store calls -----

  /** The edges of a payment's status. */
  predicate IsEdge(a: Status, b: Status) {
    (a == PendingValidation && (b == Reserved || b == Denied))
    || (a == Reserved && (b == Succeeded || b == Cancelled))
  }

  predicate MovesOn(p: Payment, p': Payment) {
    p' == p || IsEdge(p.status, p'.status)
  }

  /** No call loses a payment, and only an edge changes one. */
  predicate PaymentsMoveOn(a: Store, b: Store) {
    forall id :: id in a.payments ==>
      id in b.payments && MovesOn(a.payments[id], b.payments[id])
      && (a.payments[id].status == PendingValidation && b.payments[id] != a.payments[id] ==> id in a.pending)
  }

  predicate NothingNew(a: Store, b: Store, minted: Option<string>) {
    (forall id :: id in b.payments ==> id in a.payments || Some(id) == minted)
    && (forall id :: id in b.pending ==> id in a.pending || Some(id) == minted)
  }

  lemma CallMovesOn(mint: Mint, s: System, a: Activation)
    requires PendingOk(s) && ThreadOk(mint, s, a) && NextCall(a).Some?
    ensures var b := Apply(s.store, NextCall(a).value).0;
      PaymentsMoveOn(s.store, b) && NothingNew(s.store, b, Prepares(a))
  {
    hide IsIssued;
    var c := NextCall(a).value;
    var b := Apply(s.store, c).0;
    assert c.Insert? ==> c.id !in s.store.payments;
    assert c.Insert? || c.InsertPending? ==> Prepares(a) == Some(c.id);
    hide ThreadOk, NextCall, Prepares, Owes;
    forall id | id in s.store.payments
      ensures id in b.payments && MovesOn(s.store.payments[id], b.payments[id])
      ensures s.store.payments[id].status == PendingValidation && b.payments[id] != s.store.payments[id]
        ==> id in s.store.pending
    {
    }
  }

  lemma OtherThreadStaysOk(mint: Mint, s: System, s': System, a: Activation, minted: Option<string>)
    requires ThreadOk(mint, s, a) && (Prepares(a).Some? ==> Prepares(a) != minted)
    requires PaymentsMoveOn(s.store, s'.store) && NothingNew(s.store, s'.store, minted) && s'.counter == s.counter
    ensures ThreadOk(mint, s', a)
  {
    hide IsIssued;
  }

  lemma OwnThreadStaysOk(mint: Mint, s: System, s': System, a: Activation)
    requires PendingOk(s) && ThreadOk(mint, s, a) && NextCall(a).Some? && s'.counter == s.counter
    requires s'.store == Apply(s.store, NextCall(a).value).0
    ensures ThreadOk(mint, s', After(a, Apply(s.store, NextCall(a).value).1))
  {
    hide IsIssued;
  }

  lemma CallThreads(mint: Mint, s: System, t: nat, req: Request)
    requires PendingOk(s) && ThreadsOk(mint, s) && PreparersDistinct(s)
    requires t < |s.threads| && NextCall(s.threads[t]).Some?
    ensures ThreadsOk(mint, Step(mint, s, t, req))
  {
    var s' := Step(mint, s, t, req);
    var a := s.threads[t];
    CallMovesOn(mint, s, a);
    OwnThreadStaysOk(mint, s, s', a);
    hide ThreadOk, Apply, PaymentsMoveOn, NothingNew;
    forall i | 0 <= i < |s'.threads| ensures ThreadOk(mint, s', s'.threads[i]) {
      if i != t {
        OtherThreadStaysOk(mint, s, s', s.threads[i], Prepares(a));
      }
    }
  }

  lemma CallKeepsPayments(mint: Mint, s: System, a: Activation)
    requires PaymentsOk(mint, s) && PendingOk(s) && ThreadOk(mint, s, a) && NextCall(a).Some?
    ensures PaymentsOk(mint, s.(store := Apply(s.store, NextCall(a).value).0))
  {
    hide IsIssued;
    var b := Apply(s.store, NextCall(a).value).0;
    forall id | id in b.payments ensures IsIssued(mint, s.counter, id) && IsWellFormed(id, b.payments[id]) {
      assert id in s.store.payments || Prepares(a) == Some(id);
    }
  }

  lemma CallKeepsPending(mint: Mint, s: System, a: Activation)
    requires PendingOk(s) && ThreadOk(mint, s, a) && NextCall(a).Some?
    ensures PendingOk(s.(store := Apply(s.store, NextCall(a).value).0))
  {
    hide IsIssued;
    var b := Apply(s.store, NextCall(a).value).0;
    forall id | id in b.pending
      ensures id in b.payments && Matches(b.payments[id], b.pending[id])
      ensures 1 <= b.pending[id].attemptsLeft <= VALIDATION_ATTEMPTS
    {
      assert id in s.store.pending || a.Awaiting?;
    }
  }

  /** A payment that still awaits validation after a call was pending or owed before it, and is so after it. */
  lemma CallAwaits(mint: Mint, s: System, a: Activation, id: string)
    requires PendingOk(s) && ThreadOk(mint, s, a) && NextCall(a).Some?
    ensures var (b, r) := Apply(s.store, NextCall(a).value);
      id in b.payments && b.payments[id].status == PendingValidation ==>
        (id in s.store.payments && s.store.payments[id].status == PendingValidation) || OwesFor(After(a, r), id)
        || id in b.pending
    ensures var (b, r) := Apply(s.store, NextCall(a).value);
      id in b.payments && b.payments[id].status == PendingValidation && id in s.store.pending ==> id in b.pending
    ensures var (b, r) := Apply(s.store, NextCall(a).value);
      OwesFor(a, id) ==> OwesFor(After(a, r), id) || id in b.pending
  {
    hide IsIssued;
  }

  lemma CallAwaited(mint: Mint, s: System, t: nat, req: Request)
    requires PendingOk(s) && AwaitedOk(s) && ThreadsOk(mint, s) && PreparersDistinct(s) && CarriersDistinct(s)
    requires t < |s.threads| && NextCall(s.threads[t]).Some?
    ensures AwaitedOk(Step(mint, s, t, req))
  {
    var s' := Step(mint, s, t, req);
    assert ThreadOk(mint, s, s.threads[t]);
    ReplaceThread(s, s', t);
    hide ThreadOk, ThreadsOk, IsOwed, PreparersDistinct, CarriersDistinct, Apply, After;
    forall id | id in s'.store.payments && s'.store.payments[id].status == PendingValidation
      ensures id in s'.store.pending || IsOwed(s', id)
    {
      CallAwaits(mint, s, s.threads[t], id);
    }
  }

  /** A store call moves a sink between the thread and the notify map, or leaves both alone. */
  lemma CallMovesSink(s: System, a: Activation, id: string)
    requires NextCall(a).Some? && (a.Calling? ==> IsRequestCall(a.call))
    requires CarriesFor(a, id) ==> id !in s.store.notify
    ensures var (b, r) := Apply(s.store, NextCall(a).value);
      (CarriesFor(After(a, r), id) || id in b.notify) == (CarriesFor(a, id) || id in s.store.notify)
      && !(CarriesFor(After(a, r), id) && id in b.notify)
  {
  }

  lemma CallConserves(mint: Mint, s: System, t: nat, req: Request)
    requires SinksConserved(s) && SinksGiven(s) && PreparersDistinct(s) && CarriersDistinct(s)
    requires t < |s.threads| && NextCall(s.threads[t]).Some? && ThreadOk(mint, s, s.threads[t])
    ensures SinksConserved(Step(mint, s, t, req)) && CarriersDistinct(Step(mint, s, t, req))
  {
    var s' := Step(mint, s, t, req);
    var a := s.threads[t];
    ReplaceThread(s, s', t);
    assert IsGiven(s.given, a);
    hide ThreadOk, SinksGiven, Apply, After;
    forall id
      ensures SinkConserved(s', id) && (CarriesFor(s'.threads[t], id) ==> CarriesFor(a, id) || !IsCarried(s, id)) {
      assert SinkConserved(s, id);
      assert CarriesFor(a, id) ==> IsCarried(s, id);
      CallMovesSink(s, a, id);
    }
    hide SinksConserved;
    forall j | 0 <= j < |s'.threads| && j != t && Carries(s'.threads[t]).Some?
      ensures !CarriesFor(s'.threads[j], Carries(s'.threads[t]).value.0)
    {
      var id := Carries(s'.threads[t]).value.0;
      assert CarriesFor(s'.threads[t], id);
      assert CarriesFor(s.threads[j], id) ==> IsCarried(s, id);
    }
  }

  lemma CallSinksGiven(mint: Mint, s: System, t: nat, req: Request)
    requires t < |s.threads| && NextCall(s.threads[t]).Some?
    requires SinksGiven(s) && ThreadOk(mint, s, s.threads[t])
    ensures SinksGiven(Step(mint, s, t, req))
  {
    var s' := Step(mint, s, t, req);
    var a := s.threads[t];
    assert IsGiven(s.given, a);
    OwnSinkGiven(s, a);
    hide ThreadOk, Apply, After;
  }

  lemma OwnSinkGiven(s: System, a: Activation)
    requires SinksGiven(s) && IsGiven(s.given, a) && NextCall(a).Some? && (a.Calling? ==> IsRequestCall(a.call))
    ensures var (b, r) := Apply(s.store, NextCall(a).value);
      IsGiven(s.given, After(a, r))
      && forall id :: id in b.notify ==> id in s.given && b.notify[id] == s.given[id]
  {
  }

  lemma CallKeepsLog(mint: Mint, s: System, t: nat, req: Request)
    requires PendingOk(s) && LogOk(s)
    requires t < |s.threads| && NextCall(s.threads[t]).Some? && ThreadOk(mint, s, s.threads[t])
    ensures LogOk(Step(mint, s, t, req))
  {
    CallMovesOn(mint, s, s.threads[t]);
    hide ThreadOk, Apply, After, NothingNew;
  }

  lemma CallKeepsWins(mint: Mint, s: System, t: nat, req: Request)
    requires PendingOk(s) && WinsOk(s)
    requires t < |s.threads| && NextCall(s.threads[t]).Some? && ThreadOk(mint, s, s.threads[t])
    ensures WinsOk(Step(mint, s, t, req))
  {
    CallMovesOn(mint, s, s.threads[t]);
    CallWins(s.store, NextCall(s.threads[t]).value);
    hide ThreadOk, Apply, After, NothingNew;
    var s' := Step(mint, s, t, req);
    forall id | s'.wins[id] > 0
      ensures s'.wins[id] == 1 && id in s'.store.payments && s'.store.payments[id].status in {Succeeded, Cancelled}
    {
      assert s.wins[id] > 0 || NextCall(s.threads[t]).value.id == id;
    }
  }

  lemma CallKeepsNotify(mint: Mint, s: System, t: nat, req: Request)
    requires PendingOk(s) && NotifyOk(s)
    requires t < |s.threads| && NextCall(s.threads[t]).Some? && ThreadOk(mint, s, s.threads[t])
    ensures NotifyOk(Step(mint, s, t, req))
  {
    CallMovesOn(mint, s, s.threads[t]);
    NotifySources(mint, s, s.threads[t]);
    hide ThreadOk, Apply, After, NothingNew;
  }

  lemma NotifySources(mint: Mint, s: System, a: Activation)
    requires NotifyOk(s) && ThreadOk(mint, s, a) && NextCall(a).Some?
    ensures forall id :: id in Apply(s.store, NextCall(a).value).0.notify ==> id in s.store.payments
  {
  }

  lemma CallWins(a: Store, c: Call)
    ensures var (b, r) := Apply(a, c);
      r.Confirmed? || r.CancelledNow? ==>
        (c.Confirm? || c.Cancel?) && c.id in a.payments && a.payments[c.id].status == Reserved
        && c.id in b.payments && b.payments[c.id].status in {Succeeded, Cancelled}
  {
  }

  lemma CallKeeps(mint: Mint, s: System, t: nat, req: Request)
    requires Inv(mint, s) && t < |s.threads| && NextCall(s.threads[t]).Some?
    ensures Inv(mint, Step(mint, s, t, req))
  {
    assert ThreadOk(mint, s, s.threads[t]);
    CallThreads(mint, s, t, req);
    CallKeepsPayments(mint, s, s.threads[t]);
    CallKeepsPending(mint, s, s.threads[t]);
    CallAwaited(mint, s, t, req);
    CallConserves(mint, s, t, req);
    CallSinksGiven(mint, s, t, req);
    CallKeepsLog(mint, s, t, req);
    CallKeepsWins(mint, s, t, req);
    CallKeepsNotify(mint, s, t, req);
    CallPreparers(mint, s, t, req);
    hide ThreadOk, ThreadsOk, AwaitedOk, SinksConserved, SinksGiven, CarriersDistinct, PreparersDistinct, LogOk, WinsOk;
    hide Apply, After, IsIssued, NotifyOk;
  }

  lemma CallPreparers(mint: Mint, s: System, t: nat, req: Request)
    requires PreparersDistinct(s) && t < |s.threads| && NextCall(s.threads[t]).Some?
    ensures PreparersDistinct(Step(mint, s, t, req))
  {
    var r := Apply(s.store, NextCall(s.threads[t]).value).1;
    assert Prepares(After(s.threads[t], r)).Some? ==> Prepares(After(s.threads[t], r)) == Prepares(s.threads[t]);
    hide Apply, After;
  }

  // ----- every run -----

  lemma StepKeeps(mint: Mint, s: System, t: nat, req: Request)
    requires Inv(mint, s) && IsInjective(mint)
    ensures Inv(mint, Step(mint, s, t, req))
  {
    if t < |s.threads| {
      if s.threads[t] == Idle {
        BeginKeeps(mint, s, t, req);
      } else if s.threads[t].Announcing? || s.threads[t].Emitting? {
        DeliverKeeps(mint, s, t, req);
      } else {
        CallKeeps(mint, s, t, req);
      }
    }
  }

  lemma {:induction false} RunKeeps(mint: Mint, n: nat, schedule: seq<(nat, Request)>)
    requires IsInjective(mint)
    ensures Inv(mint, Run(mint, n, schedule))
  {
    if schedule == [] {
      InitOk(mint, n);
    } else {
      RunKeeps(mint, n, schedule[..|schedule| - 1]);
      var last := schedule[|schedule| - 1];
      StepKeeps(mint, Run(mint, n, schedule[..|schedule| - 1]), last.0, last.1);
    }
  }
}
