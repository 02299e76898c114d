/** Which requests are sure of their terminal event, however the handlers interleave. */
module PaymentPromises {
  import opened Identifiers
  import opened PaymentDelivery
  import opened PaymentGuarantees
  import opened PaymentHandlers
  import opened PaymentInvariant
  import opened PaymentStore
  import opened Wrappers

  /** Step `k` of the schedule begins `req`, and the payment it makes gets `id`. */
  predicate Begins(mint: Mint, n: nat, schedule: Schedule, k: nat, req: Request, id: string) {
    k < |schedule| && schedule[k].1 == req && !req.OnPayment?
    && var (s, t) := (Run(mint, n, schedule[..k]), schedule[k].0);
       t < |s.threads| && s.threads[t] == Idle && id == mint(s.counter)
  }

  /** A charge that succeeds at once, or a reservation whose number needs a code first. */
  predicate IsSure(req: Request) {
    req.CreatePayment? || (req.PreparePayment? && RequiresValidation(req.phone))
  }

  /** Whoever prepares `id` has not stored it yet, or has still to register the code it waits for. */
  predicate IsHeldBack(s: System, id: string) {
    forall i :: 0 <= i < |s.threads| && Prepares(s.threads[i]) == Some(id) ==>
      s.threads[i].Creating? || Owes(s.threads[i]).Some?
  }

  // ----- a sure request keeps its payment open until its sink is stashed -----

  lemma HeldBackIsNotEarly(mint: Mint, s: System, t: nat, id: string)
    requires Inv(mint, s) && IsHeldBack(s, id)
    ensures !TakesEarly(s, t, id)
  {
    forall i | 0 <= i < |s.threads| && Prepares(s.threads[i]) == Some(id) ensures StillOpen(s, id) {
      assert ThreadOk(mint, s, s.threads[i]);
    }
    hide IsHeldBack, IsIssued, ThreadOk, Owes;
    OpenIsNotEarly(mint, s, t, id);
  }

  lemma CallKeepsOwing(a: Activation, r: Outcome)
    requires Prepares(After(a, r)).Some?
    ensures Prepares(a) == Prepares(After(a, r)) && Owes(a) == Owes(After(a, r)) && !a.Creating?
  {
  }

  lemma LocalStepKeepsOwing(mint: Mint, s: System, t: nat, req: Request)
    requires t < |s.threads| && s.threads[t] != Idle && NextCall(s.threads[t]).None?
    ensures var next := Step(mint, s, t, req).threads[t];
      Prepares(next).Some? ==> Owes(next) == Owes(s.threads[t]) && !s.threads[t].Creating?
  {
  }

  lemma StepKeepsHeldBack(mint: Mint, s: System, t: nat, req: Request, id: string)
    requires Inv(mint, s) && IsInjective(mint) && IsIssued(mint, s.counter, id) && IsHeldBack(s, id)
    ensures IsHeldBack(Step(mint, s, t, req), id)
  {
    if t < |s.threads| {
      var a := s.threads[t];
      if NextCall(a).Some? {
        var r := Apply(s.store, NextCall(a).value).1;
        CallStepShape(mint, s, t, req);
        if Prepares(After(a, r)).Some? {
          CallKeepsOwing(a, r);
        }
      } else {
        LocalStepShape(mint, s, t, req);
        FreshIsNew(mint, s.counter, s.counter);
        if a != Idle {
          LocalStepKeepsOwing(mint, s, t, req);
        }
      }
      hide Inv, Step, Apply, After, Owes, Prepares, NextCall, IsIssued;
    }
  }

  lemma StepRemembers(mint: Mint, s: System, t: nat, req: Request)
    ensures s.counter <= Step(mint, s, t, req).counter
    ensures forall id :: id in s.given ==> id in Step(mint, s, t, req).given
  {
    hide Apply, After, RequiresValidation, OtpCode;
  }

  lemma {:induction false} CounterGrows(mint: Mint, n: nat, schedule: Schedule, j: nat, k: nat)
    requires j <= k <= |schedule|
    ensures Run(mint, n, schedule[..j]).counter <= Run(mint, n, schedule[..k]).counter
  {
    hide Step;
    if j < k {
      var s, last := Run(mint, n, schedule[..k - 1]), schedule[k - 1];
      assert schedule[..k][..k - 1] == schedule[..k - 1];
      assert Run(mint, n, schedule[..k]) == Step(mint, s, last.0, last.1);
      hide Run;
      CounterGrows(mint, n, schedule, j, k - 1);
      StepRemembers(mint, s, last.0, last.1);
    }
  }

  lemma BeginsEarlier(mint: Mint, n: nat, schedule: Schedule, m: nat, k: nat, req: Request, id: string)
    requires k < m <= |schedule| && Begins(mint, n, schedule, k, req, id)
    ensures Begins(mint, n, schedule[..m], k, req, id)
  {
    hide Run;
    assert schedule[..m][..k] == schedule[..k];
  }

  lemma BeginHoldsBack(mint: Mint, s: System, t: nat, req: Request)
    requires Inv(mint, s) && IsInjective(mint) && t < |s.threads| && s.threads[t] == Idle && !req.OnPayment?
    ensures IsUnderway(mint, Begin(mint, s, t, req), req, mint(s.counter))
  {
    MintIsFresh(mint, s, s.counter);
    FreshIsNew(mint, s.counter, s.counter);
    StaysIssued(mint, s.counter + 1, s.counter + 2);
    hide Inv, IsIssued;
  }

  /** What stays true of a request's payment from the step that begins it. */
  ghost predicate IsUnderway(mint: Mint, s: System, req: Request, id: string)
    requires !req.OnPayment?
  {
    IsIssued(mint, s.counter, id) && (req.target.Some? ==> id in s.given) && (IsSure(req) ==> IsHeldBack(s, id))
  }

  lemma StepKeepsUnderway(mint: Mint, s: System, t: nat, next: Request, req: Request, id: string)
    requires Inv(mint, s) && IsInjective(mint) && !req.OnPayment? && IsUnderway(mint, s, req, id)
    ensures IsUnderway(mint, Step(mint, s, t, next), req, id)
  {
    StepRemembers(mint, s, t, next);
    StaysIssued(mint, s.counter, Step(mint, s, t, next).counter);
    hide Inv, IsIssued, Step, IsHeldBack, IsSure;
    if IsSure(req) {
      StepKeepsHeldBack(mint, s, t, next, id);
    }
  }

  lemma RunLast(mint: Mint, n: nat, schedule: Schedule)
    requires schedule != []
    ensures var front, last := schedule[..|schedule| - 1], schedule[|schedule| - 1];
      Run(mint, n, schedule) == Step(mint, Run(mint, n, front), last.0, last.1)
  {
    hide Step;
  }

  lemma {:induction false} AfterBegin(mint: Mint, n: nat, schedule: Schedule, k: nat, req: Request, id: string)
    requires IsInjective(mint) && Begins(mint, n, schedule, k, req, id)
    ensures IsUnderway(mint, Run(mint, n, schedule), req, id)
  {
    hide Run, Inv, IsUnderway, Step;
    var front, last := schedule[..|schedule| - 1], schedule[|schedule| - 1];
    RunKeeps(mint, n, front);
    RunLast(mint, n, schedule);
    if k == |front| {
      BeginHoldsBack(mint, Run(mint, n, front), last.0, req);
      BeginIsStep(mint, Run(mint, n, front), last.0, req);
    } else {
      BeginsEarlier(mint, n, schedule, |front|, k, req, id);
      hide Begins;
      AfterBegin(mint, n, front, k, req, id);
      StepKeepsUnderway(mint, Run(mint, n, front), last.0, last.1, req, id);
    }
  }

  lemma BeginIsStep(mint: Mint, s: System, t: nat, req: Request)
    requires t < |s.threads| && s.threads[t] == Idle
    ensures Step(mint, s, t, req) == Begin(mint, s, t, req)
  {
    hide Begin;
  }

  lemma BeforeBegin(mint: Mint, n: nat, schedule: Schedule, j: nat, k: nat, req: Request, id: string)
    requires IsInjective(mint) && Begins(mint, n, schedule, k, req, id) && j <= k
    ensures IsHeldBack(Run(mint, n, schedule[..j]), id)
  {
    RunKeeps(mint, n, schedule[..j]);
    CounterGrows(mint, n, schedule, j, k);
    hide Run;
    MintIsFresh(mint, Run(mint, n, schedule[..j]), Run(mint, n, schedule[..k]).counter);
  }

  lemma SureIsNeverEarly(mint: Mint, n: nat, schedule: Schedule, k: nat, req: Request, id: string)
    requires IsInjective(mint) && Begins(mint, n, schedule, k, req, id) && IsSure(req)
    ensures NeverTakenEarly(mint, n, schedule, id)
  {
    hide Run, TakesEarly, IsHeldBack, Inv, Begins, IsSure;
    forall m | 0 <= m < |schedule| ensures !TakesEarly(Run(mint, n, schedule[..m]), schedule[m].0, id) {
      if m <= k {
        BeforeBegin(mint, n, schedule, m, k, req, id);
      } else {
        BeginsEarlier(mint, n, schedule, m, k, req, id);
        AfterBegin(mint, n, schedule[..m], k, req, id);
      }
      RunKeeps(mint, n, schedule[..m]);
      HeldBackIsNotEarly(mint, Run(mint, n, schedule[..m]), schedule[m].0, id);
    }
  }

  /** A sure request's payment has exactly one terminal event once it settles, under every interleaving. */
  lemma SureRequestsNotifyExactlyOnce(mint: Mint, n: nat, schedule: Schedule, k: nat, req: Request, id: string)
    requires IsInjective(mint) && Begins(mint, n, schedule, k, req, id) && IsSure(req) && req.target.Some?
    requires IsQuiet(Run(mint, n, schedule)) && id in Run(mint, n, schedule).store.payments
    ensures var s := Run(mint, n, schedule);
      TerminalEvents(s.log, id) == if IsSettled(s.store.payments[id].status) then 1 else 0
  {
    SureIsNeverEarly(mint, n, schedule, k, req, id);
    AfterBegin(mint, n, schedule, k, req, id);
    hide Run, Begins, IsSure;
    NotifiedIffNeverTakenEarly(mint, n, schedule, id);
  }

  // ----- every other request can lose its event -----

  /** A reservation that gives a sink and needs no code: it can be confirmed as soon as it is stored. */
  predicate IsExposed(req: Request) {
    req.PreparePayment? && req.target.Some? && !RequiresValidation(req.phone)
  }

  lemma RunOneMore(mint: Mint, n: nat, schedule: Schedule, t: nat, req: Request)
    ensures Run(mint, n, schedule + [(t, req)]) == Step(mint, Run(mint, n, schedule), t, req)
  {
    assert (schedule + [(t, req)])[..|schedule|] == schedule;
  }

  /** Thread 0 stores the reservation. */
  function Reservation(prepare: Request): Schedule {
    [(0, prepare)] + [(0, prepare)]
  }

  /** Thread 1 confirms it and looks for its sink. */
  function Overtaking(prepare: Request, confirm: Request): Schedule {
    Reservation(prepare) + [(1, confirm)] + [(1, confirm)] + [(1, confirm)]
  }

  /** Thread 0 announces the reservation and stashes the sink. */
  function LosingRun(prepare: Request, confirm: Request): Schedule {
    Overtaking(prepare, confirm) + [(0, prepare)] + [(0, prepare)]
  }

  function Unpaid(id: string, prepare: Request): Payment
    requires prepare.PreparePayment?
  {
    Payment(id, prepare.tx, Reserved, prepare.now, None, None)
  }

  function Paid(id: string, prepare: Request): Payment
    requires prepare.PreparePayment?
  {
    Unpaid(id, prepare).(status := Succeeded, paymentDate := Some(prepare.now))
  }

  function Announced(id: string, prepare: Request): Event
    requires IsExposed(prepare)
  {
    Event(ReservedEvent, id, prepare.target.value)
  }

  /** The stages of the run, before the reservation is announced. */
  function Stage(id: string, prepare: Request, p: Payment, second: Activation, wins: multiset<string>): System
    requires IsExposed(prepare)
  {
    System(Store(map[id := p], map[], map[]), 1, [Announcing(Announced(id, prepare), None), second], [],
           map[id := prepare.target.value], wins)
  }

  /** The reservation begun, and not stored yet. */
  function Begun(id: string, prepare: Request): System
    requires IsExposed(prepare)
  {
    System(EMPTY, 1, [Preparing(id, Unpaid(id, prepare), prepare.target, None), Idle], [],
           map[id := prepare.target.value], multiset{})
  }

  lemma BeginReservation(mint: Mint, prepare: Request)
    requires IsExposed(prepare)
    ensures Step(mint, Init(2), 0, prepare) == Begun(mint(0), prepare)
  {
    hide RequiresValidation, OtpCode;
    BeginIsStep(mint, Init(2), 0, prepare);
    assert Begin(mint, Init(2), 0, prepare).threads == Begun(mint(0), prepare).threads;
  }

  lemma StoreReservation(mint: Mint, id: string, prepare: Request)
    requires IsExposed(prepare)
    ensures Step(mint, Begun(id, prepare), 0, prepare) == Stage(id, prepare, Unpaid(id, prepare), Idle, multiset{})
  {
    hide RequiresValidation, Begin;
    var stored := Step(mint, Begun(id, prepare), 0, prepare);
    assert stored.threads == [Announcing(Announced(id, prepare), None), Idle];
    assert stored.store.payments == map[id := Unpaid(id, prepare)];
  }

  lemma AfterReservation(mint: Mint, prepare: Request)
    requires IsExposed(prepare)
    ensures var id := mint(0);
      Run(mint, 2, Reservation(prepare)) == Stage(id, prepare, Unpaid(id, prepare), Idle, multiset{})
  {
    assert Run(mint, 2, []) == Init(2);
    hide Run, Step, IsExposed, Stage, Begun;
    RunOneMore(mint, 2, [], 0, prepare);
    assert [] + [(0, prepare)] == [(0, prepare)];
    RunOneMore(mint, 2, [(0, prepare)], 0, prepare);
    BeginReservation(mint, prepare);
    StoreReservation(mint, mint(0), prepare);
  }

  lemma ConfirmSteps(mint: Mint, id: string, prepare: Request)
    requires IsExposed(prepare)
    ensures var confirm := OnPayment(Confirm(id, prepare.now));
      var begun := Step(mint, Stage(id, prepare, Unpaid(id, prepare), Idle, multiset{}), 1, confirm);
      Step(mint, begun, 1, confirm)
      == Stage(id, prepare, Paid(id, prepare), Taking(id, CompletedEvent), multiset{id})
  {
    var confirm := OnPayment(Confirm(id, prepare.now));
    var reserved := Stage(id, prepare, Unpaid(id, prepare), Idle, multiset{});
    var begun := Step(mint, reserved, 1, confirm);
    assert begun == Stage(id, prepare, Unpaid(id, prepare), Calling(confirm.call), multiset{});
    hide Begin;
    var next := Step(mint, begun, 1, confirm);
    assert next.store.payments == map[id := Paid(id, prepare)];
    assert next.threads == [reserved.threads[0], Taking(id, CompletedEvent)];
  }

  lemma TakeStep(mint: Mint, id: string, prepare: Request, p: Payment, wins: multiset<string>, req: Request)
    requires IsExposed(prepare)
    ensures Step(mint, Stage(id, prepare, p, Taking(id, CompletedEvent), wins), 1, req)
         == Stage(id, prepare, p, Idle, wins)
  {
    hide Begin;
  }

  lemma StashSteps(mint: Mint, id: string, prepare: Request, p: Payment, wins: multiset<string>, req: Request)
    requires IsExposed(prepare)
    ensures var last := Step(mint, Step(mint, Stage(id, prepare, p, Idle, wins), 0, req), 0, req);
      last.store == Store(map[id := p], map[], map[id := prepare.target.value]) && last.threads == [Idle, Idle]
      && last.log == [Announced(id, prepare)] && last.given == map[id := prepare.target.value]
  {
    hide Begin;
    var announced := Step(mint, Stage(id, prepare, p, Idle, wins), 0, req);
    assert announced.threads == [Stashing(id, prepare.target.value, None), Idle];
    assert Step(mint, announced, 0, req).threads == [Idle, Idle];
  }

  /**
   An exposed reservation can be charged without its terminal event ever being sent, its sink left in
   the notify map for good. The confirming client may have learned the id from a listing: the payment
   is in the store, and in every snapshot of it, while its own prepare handler is still in flight.
   */
  lemma OvertakenPrepareLosesItsEvent(mint: Mint, prepare: Request)
    requires IsExposed(prepare)
    ensures var (id, reserved) := (mint(0), Run(mint, 2, Reservation(prepare)));
      IsPreparing(reserved, id)
      && Apply(reserved.store, All).1 == Snapshot(map[id := Unpaid(id, prepare)])
    ensures var id := mint(0);
      var s := Run(mint, 2, LosingRun(prepare, OnPayment(Confirm(id, prepare.now))));
      IsQuiet(s) && id in s.given && id in s.store.payments && s.store.payments[id].status == Succeeded
      && TerminalEvents(s.log, id) == 0 && id in s.store.notify
  {
    var id := mint(0);
    var confirm := OnPayment(Confirm(id, prepare.now));
    assert TerminalEvents([Announced(id, prepare)], id) == 0 by {
      assert [Announced(id, prepare)][..0] == [];
    }
    AfterReservation(mint, prepare);
    ConfirmSteps(mint, id, prepare);
    TakeStep(mint, id, prepare, Paid(id, prepare), multiset{id}, confirm);
    StashSteps(mint, id, prepare, Paid(id, prepare), multiset{id}, prepare);
    hide Run, Step, Reservation, TerminalEvents, LosingRun, RequiresValidation;
    LosingSteps(mint, prepare, confirm);
  }

  lemma LosingSteps(mint: Mint, prepare: Request, confirm: Request)
    ensures var reserved := Run(mint, 2, Reservation(prepare));
      var confirmed := Step(mint, Step(mint, reserved, 1, confirm), 1, confirm);
      var taken := Step(mint, confirmed, 1, confirm);
      Run(mint, 2, LosingRun(prepare, confirm)) == Step(mint, Step(mint, taken, 0, prepare), 0, prepare)
  {
    var r := Reservation(prepare);
    var r' := r + [(1, confirm)] + [(1, confirm)] + [(1, confirm)];
    assert LosingRun(prepare, confirm) == r' + [(0, prepare)] + [(0, prepare)];
    hide Run, Step, Reservation, LosingRun;
    RunOneMore(mint, 2, r, 1, confirm);
    RunOneMore(mint, 2, r + [(1, confirm)], 1, confirm);
    RunOneMore(mint, 2, r + [(1, confirm)] + [(1, confirm)], 1, confirm);
    RunOneMore(mint, 2, r', 0, prepare);
    RunOneMore(mint, 2, r' + [(0, prepare)], 0, prepare);
  }

  // ----- the exact condition on the request -----

  /** However many handlers are interleaved with this one: once all is quiet, one event if and only if it settled. */
  ghost predicate IsAlwaysNotified(mint: Mint, req: Request) {
    forall n, schedule, k, id ::
      Begins(mint, n, schedule, k, req, id) && IsQuiet(Run(mint, n, schedule))
      && id in Run(mint, n, schedule).store.payments
      ==> TerminalEvents(Run(mint, n, schedule).log, id)
          == if IsSettled(Run(mint, n, schedule).store.payments[id].status) then 1 else 0
  }

  /**
   A request that gives a sink is sure of exactly one terminal event, whatever other requests are
   interleaved with it, if and only if it charges at once or its number needs a code.
   */
  lemma AlwaysNotifiedIffSure(mint: Mint, req: Request)
    requires IsInjective(mint) && !req.OnPayment? && req.target.Some?
    ensures IsAlwaysNotified(mint, req) <==> IsSure(req)
  {
    if IsSure(req) {
      hide Run, Begins, IsSure;
      forall n, schedule, k, id |
        Begins(mint, n, schedule, k, req, id) && IsQuiet(Run(mint, n, schedule))
        && id in Run(mint, n, schedule).store.payments
        ensures TerminalEvents(Run(mint, n, schedule).log, id)
             == if IsSettled(Run(mint, n, schedule).store.payments[id].status) then 1 else 0
      {
        SureRequestsNotifyExactlyOnce(mint, n, schedule, k, req, id);
      }
    } else {
      var id := mint(0);
      var run := LosingRun(req, OnPayment(Confirm(id, req.now)));
      OvertakenPrepareLosesItsEvent(mint, req);
      assert Begins(mint, 2, run, 0, req, id);
    }
  }
}
