/** The five payment handlers one at a time, changing the stores in place. */
module PaymentService {
  import opened Identifiers
  import opened PaymentDelivery
  import opened PaymentGuarantees
  import opened PaymentHandlers
  import opened PaymentLocks
  import opened PaymentStore
  import opened Wrappers

  // ----- a handler run to its end -----

  /** Thread 0 steps until its handler is done. */
  function Finish(mint: Mint, s: System, req: Request): System
    requires |s.threads| == 1
    decreases CallsLeft(s.threads[0])
  {
    if s.threads[0] == Idle then s
    else
      StepIsCloser(mint, s, req);
      Finish(mint, Step(mint, s, 0, req), req)
  }

  lemma StepIsCloser(mint: Mint, s: System, req: Request)
    requires |s.threads| == 1 && s.threads[0] != Idle
    ensures |Step(mint, s, 0, req).threads| == 1
    ensures CallsLeft(Step(mint, s, 0, req).threads[0]) < CallsLeft(s.threads[0])
  {
    if NextCall(s.threads[0]).Some? {
      AnsweredIsCloser(s.threads[0], Apply(s.store, NextCall(s.threads[0]).value).1);
      hide Apply, After;
    }
  }

  function Serve(mint: Mint, s: System, req: Request): System
    requires |s.threads| == 1 && s.threads[0] == Idle
  {
    Finish(mint, Begin(mint, s, 0, req), req)
  }

  /** The state after the requests are served one after another. */
  function ServeAll(mint: Mint, reqs: seq<Request>): (s: System)
    ensures |s.threads| == 1 && s.threads[0] == Idle
  {
    if reqs == [] then Init(1)
    else
      var before := ServeAll(mint, reqs[..|reqs| - 1]);
      FinishEndsIdle(mint, Begin(mint, before, 0, reqs[|reqs| - 1]), reqs[|reqs| - 1]);
      Serve(mint, before, reqs[|reqs| - 1])
  }

  lemma {:induction false} FinishEndsIdle(mint: Mint, s: System, req: Request)
    requires |s.threads| == 1
    ensures |Finish(mint, s, req).threads| == 1 && Finish(mint, s, req).threads[0] == Idle
    decreases CallsLeft(s.threads[0])
  {
    hide Step;
    if s.threads[0] != Idle {
      StepIsCloser(mint, s, req);
      FinishEndsIdle(mint, Step(mint, s, 0, req), req);
    }
  }

  lemma {:induction false} FinishIsRun(mint: Mint, schedule: Schedule, req: Request) returns (longer: Schedule)
    requires |Run(mint, 1, schedule).threads| == 1
    ensures Run(mint, 1, longer) == Finish(mint, Run(mint, 1, schedule), req)
    decreases CallsLeft(Run(mint, 1, schedule).threads[0])
  {
    var s := Run(mint, 1, schedule);
    if s.threads[0] == Idle {
      longer := schedule;
    } else {
      StepIsCloser(mint, s, req);
      var next := schedule + [(0, req)];
      assert next[..|schedule|] == schedule && Run(mint, 1, next) == Step(mint, s, 0, req);
      hide Step;
      longer := FinishIsRun(mint, next, req);
    }
  }

  /** Serving one request after another is a run of the interleaved system with a single thread. */
  lemma {:induction false} ServingIsRun(mint: Mint, reqs: seq<Request>) returns (schedule: Schedule)
    ensures Run(mint, 1, schedule) == ServeAll(mint, reqs)
  {
    if reqs == [] {
      schedule := [];
    } else {
      var front, last := reqs[..|reqs| - 1], reqs[|reqs| - 1];
      var before := ServingIsRun(mint, front);
      var begun := before + [(0, last)];
      assert begun[..|before|] == before;
      assert Run(mint, 1, begun) == Begin(mint, ServeAll(mint, front), 0, last);
      ThreadCount(mint, 1, begun);
      schedule := FinishIsRun(mint, begun, last);
    }
  }

  /** What holds between any two requests served one at a time. */
  predicate IsConsistent(s: System, id: string) {
    var awaiting := id in s.store.payments && s.store.payments[id].status == PendingValidation;
    (id in s.store.pending <==> awaiting)
    && (awaiting <==> id in s.store.payments && s.store.payments[id].authorizationId.Some?)
    && (awaiting ==> (s.store.payments[id].authorizationId == Some(s.store.pending[id].authorizationId)
                      && 1 <= s.store.pending[id].attemptsLeft <= 3))
    && (id in s.store.payments ==>
        (s.store.payments[id].paymentDate.Some? <==> s.store.payments[id].status == Succeeded))
    && (id in s.given && id in s.store.payments ==>
        TerminalEvents(s.log, id) == if IsSettled(s.store.payments[id].status) then 1 else 0)
  }

  lemma ServedIsConsistent(mint: Mint, reqs: seq<Request>, id: string)
    requires IsInjective(mint)
    ensures IsConsistent(ServeAll(mint, reqs), id)
  {
    var schedule := ServingIsRun(mint, reqs);
    hide Run, ServeAll;
    StoresAgreeWhenQuiet(mint, 1, schedule, id);
    var s := Run(mint, 1, schedule);
    if id in s.given && id in s.store.payments {
      OneAtATimeIsNeverEarly(mint, schedule, id);
      NotifiedIffNeverTakenEarly(mint, 1, schedule, id);
    }
  }

  // ----- the handlers -----

  class PaymentHandlerService {
    const mint: Mint
    const stores: PaymentStores
    var counter: nat
    ghost var log: seq<Event>
    ghost var given: map<string, Target>
    ghost var wins: multiset<string>
    ghost var served: seq<Request>

    constructor (mint: Mint)
      ensures this.mint == mint && fresh(stores) && Valid() && served == []
    {
      this.mint := mint;
      stores := new PaymentStores();
      counter, log, given, wins, served := 0, [], map[], multiset{}, [];
    }

    ghost function View(): System
      reads this, stores
    {
      System(stores.Contents(), counter, [Idle], log, given, wins)
    }

    /** The state is the one that serving the requests so far leads to. */
    ghost predicate Valid()
      reads this, stores
    {
      View() == ServeAll(mint, served)
    }

    /** What every user of a service may rely on between two calls, whatever was served before. */
    lemma AlwaysConsistent(id: string)
      requires Valid() && IsInjective(mint)
      ensures IsConsistent(View(), id)
    {
      ServedIsConsistent(mint, served, id);
    }

    /** Enter a request that has just been served into the history. */
    ghost method Remember(before: System, req: Request)
      requires before == ServeAll(mint, served) && View() == Serve(mint, before, req)
      modifies this`served
      ensures Valid() && served == old(served) + [req]
    {
      ServedOneMore(mint, served, req);
      hide Serve, ServeAll;
      served := served + [req];
    }

    method MintId() returns (id: string)
      modifies this`counter
      ensures id == mint(old(counter)) && counter == old(counter) + 1
    {
      id := mint(counter);
      counter := counter + 1;
    }

    /** Hand an event over for delivery; its own id is minted too. */
    method Deliver(event: Event)
      modifies this`counter, this`log
      ensures counter == old(counter) + 1 && log == old(log) + [event]
    {
      var eventId := MintId();
      log := log + [event];
    }

    method Create(tx: string, target: Option<Target>, now: string) returns (id: string)
      requires Valid()
      modifies this, stores
      ensures Valid() && served == old(served) + [CreatePayment(tx, target, now)]
      ensures View() == Serve(mint, old(View()), CreatePayment(tx, target, now))
      ensures id == mint(old(counter))
    {
      ghost var before := View();
      ServeCreate(mint, View(), tx, target, now);
      hide Serve, ServeAll, Apply;
      id := MintId();
      given := Record(given, id, target);
      stores.InsertPayment(id, Payment(id, tx, Succeeded, now, Some(now), None));
      if target.Some? {
        Deliver(Event(CompletedEvent, id, target.value));
      }
      Remember(before, CreatePayment(tx, target, now));
    }

    /** Report a reservation to its sink, and keep the sink for the terminal event. */
    method AnnounceAndStash(kind: Kind, id: string, target: Option<Target>)
      modifies this`counter, this`log, stores`notify
      ensures counter == old(counter) + if target.Some? then 1 else 0
      ensures log == if target.Some? then old(log) + [Event(kind, id, target.value)] else old(log)
      ensures stores.notify == if target.Some? then old(stores.notify)[id := target.value] else old(stores.notify)
    {
      if target.Some? {
        Deliver(Event(kind, id, target.value));
        stores.InsertNotifyTarget(id, target.value);
      }
    }

    method PrepareValidation(id: string, phone: string, tx: string, target: Option<Target>, now: string)
      modifies this`counter, this`log, stores
      ensures View() == Prepared(old(View()).(counter := old(counter) + 1), id,
        Payment(id, tx, PendingValidation, now, None, Some(mint(old(counter)))), target,
        Some(Validation(mint(old(counter)), OtpCode(phone), VALIDATION_ATTEMPTS)))
    {
      hide Apply, OtpCode;
      var authorizationId := MintId();
      var validation := Validation(authorizationId, OtpCode(phone), VALIDATION_ATTEMPTS);
      stores.InsertPayment(id, Payment(id, tx, PendingValidation, now, None, Some(authorizationId)));
      AnnounceAndStash(PendingEvent, id, target);
      stores.InsertPendingValidation(id, validation);
    }

    method PrepareReservation(id: string, tx: string, target: Option<Target>, now: string)
      modifies this`counter, this`log, stores
      ensures View() == Prepared(old(View()), id, Payment(id, tx, Reserved, now, None, None), target, None)
    {
      hide Apply;
      stores.InsertPayment(id, Payment(id, tx, Reserved, now, None, None));
      AnnounceAndStash(ReservedEvent, id, target);
    }

    /** Mint the payment, store it as awaiting its code or as reserved, and announce it. */
    method StorePrepared(phone: string, tx: string, target: Option<Target>, now: string) returns (id: string)
      modifies this`counter, this`log, this`given, stores
      ensures View() == PreparedFor(mint, old(View()), phone, tx, target, now)
      ensures id == mint(old(counter))
    {
      hide RequiresValidation, OtpCode, Record;
      id := MintId();
      given := Record(given, id, target);
      hide Prepared;
      if RequiresValidation(phone) {
        PrepareValidation(id, phone, tx, target, now);
      } else {
        PrepareReservation(id, tx, target, now);
      }
    }

    method Prepare(phone: string, tx: string, target: Option<Target>, now: string) returns (id: string)
      requires Valid()
      modifies this, stores
      ensures Valid() && served == old(served) + [PreparePayment(phone, tx, target, now)]
      ensures View() == Serve(mint, old(View()), PreparePayment(phone, tx, target, now))
      ensures id == mint(old(counter))
    {
      ghost var before := View();
      ServePrepare(mint, before, phone, tx, target, now);
      hide Serve, ServeAll, PreparedFor;
      id := StorePrepared(phone, tx, target, now);
      Remember(before, PreparePayment(phone, tx, target, now));
    }

    /** Take the sink of a payment that just settled and report the outcome to it. */
    method NotifySettled(id: string, kind: Kind)
      modifies this`counter, this`log, stores
      ensures (View().store, View().log, View().counter) == Notified(old(View()), id, kind)
    {
      var target := stores.TakeNotifyTarget(id);
      if target.Some? {
        Deliver(Event(kind, id, target.value));
      }
    }

    method Validate(id: string, authorizationId: string, code: string) returns (outcome: Outcome)
      requires Valid()
      modifies this, stores
      ensures Valid() && served == old(served) + [OnPayment(Call.Validate(id, authorizationId, code))]
      ensures View() == Serve(mint, old(View()), OnPayment(Call.Validate(id, authorizationId, code)))
      ensures outcome == Apply(old(stores.Contents()), Call.Validate(id, authorizationId, code)).1
    {
      ghost var before := View();
      ghost var call := Call.Validate(id, authorizationId, code);
      ServeCall(mint, View(), call);
      hide Serve, ServeAll, Apply;
      outcome := stores.ValidatePending(id, authorizationId, code);
      if outcome.ValidationFailed? {
        NotifySettled(id, DeniedEvent);
      }
      Remember(before, OnPayment(call));
    }

    method Confirm(id: string, now: string) returns (outcome: Outcome)
      requires Valid()
      modifies this, stores
      ensures Valid() && served == old(served) + [OnPayment(Call.Confirm(id, now))]
      ensures View() == Serve(mint, old(View()), OnPayment(Call.Confirm(id, now)))
      ensures outcome == Apply(old(stores.Contents()), Call.Confirm(id, now)).1
    {
      ghost var before := View();
      ghost var call := Call.Confirm(id, now);
      ServeCall(mint, View(), call);
      hide Serve, ServeAll, Apply;
      outcome := stores.ConfirmPayment(id, now);
      if outcome.Confirmed? {
        wins := wins + multiset{id};
        NotifySettled(id, CompletedEvent);
      }
      Remember(before, OnPayment(call));
    }

    method Cancel(id: string) returns (outcome: Outcome)
      requires Valid()
      modifies this, stores
      ensures Valid() && served == old(served) + [OnPayment(Call.Cancel(id))]
      ensures View() == Serve(mint, old(View()), OnPayment(Call.Cancel(id)))
      ensures outcome == Apply(old(stores.Contents()), Call.Cancel(id)).1
    {
      ghost var before := View();
      ghost var call := Call.Cancel(id);
      ServeCall(mint, View(), call);
      hide Serve, ServeAll, Apply;
      outcome := stores.CancelPayment(id);
      if outcome.CancelledNow? {
        wins := wins + multiset{id};
        NotifySettled(id, CancelledEvent);
      }
      Remember(before, OnPayment(call));
    }
  }

  lemma ServedOneMore(mint: Mint, reqs: seq<Request>, req: Request)
    ensures ServeAll(mint, reqs + [req]) == Serve(mint, ServeAll(mint, reqs), req)
  {
    assert (reqs + [req])[..|reqs|] == reqs;
    hide Serve;
  }

  // ----- the handlers run to their end, in closed form -----

  lemma ServeCreate(mint: Mint, s: System, tx: string, target: Option<Target>, now: string)
    requires s.threads == [Idle]
    ensures var id := mint(s.counter);
      Serve(mint, s, CreatePayment(tx, target, now)) == s.(
        store := s.store.(payments := s.store.payments[id := Payment(id, tx, Succeeded, now, Some(now), None)]),
        counter := s.counter + if target.Some? then 2 else 1,
        given := Record(s.given, id, target),
        log := if target.Some? then s.log + [Event(CompletedEvent, id, target.value)] else s.log)
  {
    var req := CreatePayment(tx, target, now);
    var s1 := Begin(mint, s, 0, req);
    var s2 := Step(mint, s1, 0, req);
    FinishUnfolds(mint, s1, req);
    FinishUnfolds(mint, s2, req);
    if target.Some? {
      FinishUnfolds(mint, Step(mint, s2, 0, req), req);
    }
    hide Finish;
  }

  lemma FinishAwaiting(mint: Mint, s: System, id: string, v: Validation, req: Request)
    requires s.threads == [Awaiting(id, v)]
    ensures Finish(mint, s, req) == s.(store := s.store.(pending := s.store.pending[id := v]), threads := [Idle])
  {
    hide Finish, Begin;
    assert Step(mint, s, 0, req) == s.(store := s.store.(pending := s.store.pending[id := v]), threads := [Idle]);
    hide Step;
    FinishUnfolds(mint, s, req);
    FinishUnfolds(mint, Step(mint, s, 0, req), req);
  }

  lemma FinishStashing(mint: Mint, s: System, id: string, target: Target, v: Option<Validation>, req: Request)
    requires s.threads == [Stashing(id, target, v)]
    ensures Finish(mint, s, req) == s.(
      store := Store(s.store.payments,
        if v.Some? then s.store.pending[id := v.value] else s.store.pending, s.store.notify[id := target]),
      threads := [Idle])
  {
    var next := Step(mint, s, 0, req);
    FinishUnfolds(mint, s, req);
    if v.Some? {
      FinishAwaiting(mint, next, id, v.value, req);
    } else {
      FinishUnfolds(mint, next, req);
    }
    hide Finish;
  }

  /** The state once prepare, its ids minted, has inserted, announced and stashed what it has to. */
  function Prepared(s: System, id: string, p: Payment, target: Option<Target>, v: Option<Validation>): System {
    s.(store := Store(s.store.payments[id := p],
         if v.Some? then s.store.pending[id := v.value] else s.store.pending,
         if target.Some? then s.store.notify[id := target.value] else s.store.notify),
       counter := s.counter + (if target.Some? then 1 else 0),
       log :=
         if target.Some? then s.log + [Event(if v.Some? then PendingEvent else ReservedEvent, id, target.value)]
         else s.log,
       threads := [Idle])
  }

  /** The state after a prepare request is served: its ids minted, then as above. */
  function PreparedFor(mint: Mint, s: System, phone: string, tx: string, target: Option<Target>, now: string): System {
    var id, minted := mint(s.counter), mint(s.counter + 1);
    var after := s.(given := Record(s.given, id, target));
    if RequiresValidation(phone) then
      Prepared(after.(counter := s.counter + 2), id,
               Payment(id, tx, PendingValidation, now, None, Some(minted)), target,
               Some(Validation(minted, OtpCode(phone), VALIDATION_ATTEMPTS)))
    else
      Prepared(after.(counter := s.counter + 1), id, Payment(id, tx, Reserved, now, None, None), target, None)
  }

  lemma FinishPreparing(
      mint: Mint, s: System, id: string, p: Payment, target: Option<Target>, v: Option<Validation>, req: Request)
    requires s.threads == [Preparing(id, p, target, v)]
    ensures Finish(mint, s, req) == Prepared(s, id, p, target, v)
  {
    var next := Step(mint, s, 0, req);
    FinishUnfolds(mint, s, req);
    if target.Some? {
      FinishUnfolds(mint, next, req);
      FinishStashing(mint, Step(mint, next, 0, req), id, target.value, v, req);
    } else if v.Some? {
      FinishAwaiting(mint, next, id, v.value, req);
    } else {
      FinishUnfolds(mint, next, req);
    }
    hide Finish;
  }

  lemma ServePrepare(mint: Mint, s: System, phone: string, tx: string, target: Option<Target>, now: string)
    requires s.threads == [Idle]
    ensures Serve(mint, s, PreparePayment(phone, tx, target, now)) == PreparedFor(mint, s, phone, tx, target, now)
  {
    hide RequiresValidation, OtpCode, Finish;
    var req := PreparePayment(phone, tx, target, now);
    var begun := Begin(mint, s, 0, req);
    var a := begun.threads[0];
    FinishPreparing(mint, begun, a.id, a.payment, a.given, a.validation, req);
  }

  /** Store, log and counter after the sink of `id` is taken and, if there was one, told. */
  function Notified(s: System, id: string, kind: Kind): (Store, seq<Event>, nat) {
    if id in s.store.notify then
      (s.store.(notify := s.store.notify - {id}), s.log + [Event(kind, id, s.store.notify[id])], s.counter + 1)
    else (s.store, s.log, s.counter)
  }

  function SettledKind(c: Call, r: Outcome): Option<Kind> {
    if c.Confirm? && r.Confirmed? then Some(CompletedEvent)
    else if c.Cancel? && r.CancelledNow? then Some(CancelledEvent)
    else if c.Validate? && r.ValidationFailed? then Some(DeniedEvent)
    else None
  }

  lemma TakingSteps(mint: Mint, s: System, id: string, kind: Kind, req: Request)
    requires s.threads == [Taking(id, kind)]
    ensures Step(mint, s, 0, req) ==
      if id in s.store.notify then
        s.(store := s.store.(notify := s.store.notify - {id}),
          threads := [Emitting(Event(kind, id, s.store.notify[id]))])
      else s.(threads := [Idle])
  {
    hide Begin;
  }

  lemma FinishTaking(mint: Mint, s: System, id: string, kind: Kind, req: Request)
    requires s.threads == [Taking(id, kind)]
    ensures var (store, log, counter) := Notified(s, id, kind);
      Finish(mint, s, req) == s.(store := store, log := log, counter := counter, threads := [Idle])
  {
    hide Begin, Finish, Apply, After;
    var next := Step(mint, s, 0, req);
    TakingSteps(mint, s, id, kind, req);
    FinishUnfolds(mint, s, req);
    FinishUnfolds(mint, next, req);
    if id in s.store.notify {
      FinishUnfolds(mint, Step(mint, next, 0, req), req);
    }
  }

  lemma AfterCall(c: Call, r: Outcome)
    requires c.Validate? || c.Confirm? || c.Cancel?
    ensures After(Calling(c), r)
         == if SettledKind(c, r).Some? then Taking(c.id, SettledKind(c, r).value) else Idle
  {
  }

  lemma WinnersOf(s: Store, c: Call)
    ensures var r := Apply(s, c).1; (r.Confirmed? ==> c.Confirm?) && (r.CancelledNow? ==> c.Cancel?)
  {
  }

  lemma ServeCall(mint: Mint, s: System, c: Call)
    requires s.threads == [Idle] && (c.Validate? || c.Confirm? || c.Cancel?)
    ensures var (store, r) := Apply(s.store, c);
      var called := s.(store := store,
        wins := if r.Confirmed? || r.CancelledNow? then s.wins + multiset{c.id} else s.wins);
      Serve(mint, s, OnPayment(c)) ==
        if SettledKind(c, r).None? then called
        else
          var (store', log, counter) := Notified(called, c.id, SettledKind(c, r).value);
          called.(store := store', log := log, counter := counter)
    ensures var r := Apply(s.store, c).1; (r.Confirmed? ==> c.Confirm?) && (r.CancelledNow? ==> c.Cancel?)
  {
    var req := OnPayment(c);
    var (store, r) := Apply(s.store, c);
    AfterCall(c, r);
    WinnersOf(s.store, c);
    hide Finish, Apply, After, SettledKind;
    var begun := Begin(mint, s, 0, req);
    assert begun.threads == [Calling(c)];
    FinishUnfolds(mint, begun, req);
    hide Notified;
    var called := Step(mint, begun, 0, req);
    if SettledKind(c, r).Some? {
      assert called.threads == [Taking(c.id, SettledKind(c, r).value)];
      FinishTaking(mint, called, c.id, SettledKind(c, r).value, req);
    } else {
      assert called.threads == [Idle];
      FinishUnfolds(mint, called, req);
    }
  }

  lemma FinishUnfolds(mint: Mint, s: System, req: Request)
    requires |s.threads| == 1
    ensures s.threads[0] == Idle ==> Finish(mint, s, req) == s
    ensures s.threads[0] != Idle ==> |Step(mint, s, 0, req).threads| == 1
    ensures s.threads[0] != Idle ==> Finish(mint, s, req) == Finish(mint, Step(mint, s, 0, req), req)
  {
    hide Step;
    if s.threads[0] != Idle {
      StepIsCloser(mint, s, req);
    }
  }
}
