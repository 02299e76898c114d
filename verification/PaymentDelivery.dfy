/** Exactly when the terminal event of a payment reaches the sink that was given for it. */
module PaymentDelivery {
  import opened PaymentGuarantees
  import opened PaymentHandlers
  import opened PaymentInvariant
  import opened PaymentStore
  import opened Wrappers

  // ----- where a terminal event stands -----

  predicate TakesFor(a: Activation, id: string) {
    a.Taking? && a.id == id
  }

  predicate EmitsFor(a: Activation, id: string) {
    a.Emitting? && a.event.paymentId == id
  }

  predicate IsBeingTold(s: System, id: string) {
    exists i :: 0 <= i < |s.threads| && (TakesFor(s.threads[i], id) || EmitsFor(s.threads[i], id))
  }

  predicate StillOpen(s: System, id: string) {
    id in s.store.payments ==> !IsSettled(s.store.payments[id].status)
  }

  /** If the payment gave a sink and has settled, its terminal event was delivered or is on its way. */
  predicate IsTold(s: System, id: string) {
    id in s.given && !StillOpen(s, id) ==> TerminalEvents(s.log, id) > 0 || IsBeingTold(s, id)
  }

  /** The prepare handler of `id` still holds the sink it is going to stash. */
  predicate IsStashDue(s: System, id: string) {
    exists i :: 0 <= i < |s.threads| && Prepares(s.threads[i]) == Some(id) && CarriesFor(s.threads[i], id)
  }

  /** Thread `t` is about to look for a sink that has not been stashed yet. */
  predicate TakesEarly(s: System, t: nat, id: string) {
    t < |s.threads| && TakesFor(s.threads[t], id) && IsStashDue(s, id)
  }

  /** Only one handler ever looks for a payment's sink. */
  predicate TakersDistinct(s: System) {
    forall i, j :: 0 <= i < j < |s.threads| && s.threads[i].Taking? ==> !TakesFor(s.threads[j], s.threads[i].id)
  }

  // ----- what a step touches -----

  /** A step that is no store call leaves the stores alone and starts to look for no sink. */
  lemma LocalStepShape(mint: Mint, s: System, t: nat, req: Request)
    requires t < |s.threads| && NextCall(s.threads[t]).None?
    ensures var s' := Step(mint, s, t, req);
      |s'.threads| == |s.threads| && s'.threads == s.threads[t := s'.threads[t]] && s'.store == s.store
      && !s'.threads[t].Taking?
      && (Prepares(s'.threads[t]).Some? ==>
            Prepares(s'.threads[t]) == Prepares(s.threads[t])
            || (s.threads[t] == Idle && Prepares(s'.threads[t]) == Some(mint(s.counter))))
  {
  }

  lemma CallStepShape(mint: Mint, s: System, t: nat, req: Request)
    requires t < |s.threads| && NextCall(s.threads[t]).Some?
    ensures var (s', call) := (Step(mint, s, t, req), Apply(s.store, NextCall(s.threads[t]).value));
      s'.threads == s.threads[t := After(s.threads[t], call.1)] && s'.store == call.0
  {
    hide Apply, After, Begin;
  }

  // ----- calls that settle a payment -----

  /** Only three answers settle a payment, and a denial needs its pending validation. */
  lemma SettlingAnswers(a: Store, c: Call, id: string)
    requires id in a.payments ==> !IsSettled(a.payments[id].status)
    requires c.Insert? && c.id == id ==> !IsSettled(c.payment.status)
    ensures var (b, r) := Apply(a, c);
      id in b.payments && IsSettled(b.payments[id].status) ==>
        (c.Confirm? && c.id == id && r.Confirmed?)
        || (c.Cancel? && c.id == id && r.CancelledNow?)
        || (c.Validate? && c.id == id && r.ValidationFailed? && id in a.pending)
  {
  }

  /** A handler starts looking for a sink only by settling that payment. */
  lemma TakerSettles(mint: Mint, s: System, a: Activation, id: string)
    requires PendingOk(s) && ThreadOk(mint, s, a) && NextCall(a).Some?
    requires TakesFor(After(a, Apply(s.store, NextCall(a).value).1), id)
    ensures id in s.store.payments && StillOpen(s, id) && a.Calling?
  {
    hide IsIssued;
  }

  lemma TakerHasSettled(mint: Mint, s: System, i: nat, id: string)
    requires ThreadsOk(mint, s) && i < |s.threads| && (TakesFor(s.threads[i], id) || EmitsFor(s.threads[i], id))
    ensures !StillOpen(s, id)
  {
    assert ThreadOk(mint, s, s.threads[i]);
  }

  lemma StepKeepsTakersDistinct(mint: Mint, s: System, t: nat, req: Request)
    requires Inv(mint, s) && TakersDistinct(s)
    ensures TakersDistinct(Step(mint, s, t, req))
  {
    if t < |s.threads| {
      var s' := Step(mint, s, t, req);
      var a := s.threads[t];
      assert ThreadsOk(mint, s) && PendingOk(s) && ThreadOk(mint, s, a);
      if NextCall(a).None? {
        LocalStepShape(mint, s, t, req);
      } else {
        CallStepShape(mint, s, t, req);
      }
      hide Step, Inv, ThreadOk, ThreadsOk, StillOpen, Apply, After, NextCall;
      if s'.threads[t].Taking? {
        var id := s'.threads[t].id;
        TakerSettles(mint, s, a, id);
        forall i | 0 <= i < |s.threads| ensures !TakesFor(s.threads[i], id) {
          if TakesFor(s.threads[i], id) {
            TakerHasSettled(mint, s, i, id);
          }
        }
      }
    }
  }

  // ----- one step -----

  /** A step of a thread that was not telling `id` its outcome changes only what that thread itself does next. */
  lemma BeingToldAfter(s: System, s': System, t: nat, id: string)
    requires t < |s.threads| == |s'.threads| && s'.threads == s.threads[t := s'.threads[t]]
    requires !TakesFor(s.threads[t], id) && !EmitsFor(s.threads[t], id)
    ensures IsBeingTold(s', id) <==> IsBeingTold(s, id) || TakesFor(s'.threads[t], id) || EmitsFor(s'.threads[t], id)
  {
    hide TakesFor, EmitsFor;
    if IsBeingTold(s, id) {
      var i :| 0 <= i < |s.threads| && (TakesFor(s.threads[i], id) || EmitsFor(s.threads[i], id));
      assert s'.threads[i] == s.threads[i];
    }
    if TakesFor(s'.threads[t], id) || EmitsFor(s'.threads[t], id) {
      assert IsBeingTold(s', id);
    }
  }

  lemma BeginTells(mint: Mint, s: System, t: nat, req: Request, id: string)
    requires Inv(mint, s) && IsInjective(mint) && t < |s.threads| && s.threads[t] == Idle
    ensures IsTold(Begin(mint, s, t, req), id) <==> IsTold(s, id)
  {
    var s' := Begin(mint, s, t, req);
    MintIsFresh(mint, s, s.counter);
    hide Inv, IsBeingTold, TerminalEvents;
    BeginShape(mint, s, t, req);
    hide Begin;
    BeingToldAfter(s, s', t, id);
  }

  lemma DeliverShape(mint: Mint, s: System, t: nat, req: Request)
    requires t < |s.threads| && (s.threads[t].Announcing? || s.threads[t].Emitting?)
    ensures var (s', a) := (Step(mint, s, t, req), s.threads[t]);
      s'.log == s.log + [a.event] && s'.store == s.store && s'.given == s.given
      && s'.threads == s.threads[t := if a.Announcing?
         then Stashing(a.event.paymentId, a.event.target, a.validation) else Idle]
  {
  }

  lemma LogOneMore(log: seq<Event>, e: Event, id: string)
    ensures TerminalEvents(log + [e], id)
     == TerminalEvents(log, id) + if IsTerminal(e.kind) && e.paymentId == id then 1 else 0
  {
    assert (log + [e])[..|log|] == log;
  }

  lemma DeliverTells(mint: Mint, s: System, t: nat, req: Request, id: string)
    requires Inv(mint, s) && t < |s.threads| && (s.threads[t].Announcing? || s.threads[t].Emitting?)
    ensures IsTold(Step(mint, s, t, req), id) <==> IsTold(s, id)
  {
    var s' := Step(mint, s, t, req);
    var a := s.threads[t];
    assert ThreadsOk(mint, s) && ThreadOk(mint, s, a);
    DeliverShape(mint, s, t, req);
    LogOneMore(s.log, a.event, id);
    if EmitsFor(a, id) {
      assert IsBeingTold(s, id);
    } else {
      BeingToldAfter(s, s', t, id);
    }
    hide Inv, ThreadsOk, IsBeingTold, Step, TerminalEvents, StillOpen;
  }

  /** A create handler that was given no sink belongs to a payment that was given none. */
  lemma CreatedWithoutSink(mint: Mint, s: System, t: nat)
    requires Inv(mint, s) && t < |s.threads| && s.threads[t].Creating? && s.threads[t].given.None?
    ensures s.threads[t].id !in s.given
  {
    var id := s.threads[t].id;
    assert ThreadOk(mint, s, s.threads[t]) && SinkConserved(s, id);
    if id in s.given && TerminalEvents(s.log, id) > 0 {
      var i := CountedEvent(s.log, id);
      assert false;
    }
    forall i | 0 <= i < |s.threads| ensures !CarriesFor(s.threads[i], id) {
      assert ThreadOk(mint, s, s.threads[i]);
      assert i != t ==> Prepares(s.threads[i]) != Some(id);
    }
  }

  lemma CallTells(mint: Mint, s: System, t: nat, req: Request, id: string)
    requires Inv(mint, s) && t < |s.threads| && NextCall(s.threads[t]).Some? && !TakesFor(s.threads[t], id)
    ensures IsTold(Step(mint, s, t, req), id) <==> IsTold(s, id)
  {
    var a := s.threads[t];
    var s' := Step(mint, s, t, req);
    assert ThreadsOk(mint, s) && ThreadOk(mint, s, a);
    CallMovesOn(mint, s, a);
    BeingToldAfter(s, s', t, id);
    if !StillOpen(s, id) {
      OpenPaymentsTell(mint, s, a, id);
      assert MovesOn(s.store.payments[id], s'.store.payments[id]);
    } else if !StillOpen(s', id) {
      if a.Creating? && a.id == id && a.given.None? {
        CreatedWithoutSink(mint, s, t);
      }
      SettlingTells(mint, s, a, id);
    }
    hide Inv, ThreadsOk, ThreadOk, IsBeingTold, Apply, After, PaymentsMoveOn;
  }

  /** Nobody starts to tell the outcome of a payment that has settled before. */
  lemma OpenPaymentsTell(mint: Mint, s: System, a: Activation, id: string)
    requires PendingOk(s) && ThreadOk(mint, s, a) && NextCall(a).Some? && !TakesFor(a, id) && !StillOpen(s, id)
    ensures var next := After(a, Apply(s.store, NextCall(a).value).1); !TakesFor(next, id) && !EmitsFor(next, id)
  {
    hide IsIssued;
  }

  /** The handler that settles a payment goes on to tell the outcome, if there is a sink to tell it to. */
  lemma SettlingTells(mint: Mint, s: System, a: Activation, id: string)
    requires ThreadOk(mint, s, a) && NextCall(a).Some? && StillOpen(s, id)
    requires var b := Apply(s.store, NextCall(a).value).0; id in b.payments && IsSettled(b.payments[id].status)
    ensures var next := After(a, Apply(s.store, NextCall(a).value).1);
      TakesFor(next, id) || EmitsFor(next, id) || (a.Creating? && a.id == id && a.given.None?)
  {
    hide IsIssued;
    if !(a.Creating? && a.id == id) {
      SettlingAnswers(s.store, NextCall(a).value, id);
    }
  }

  /** Looking for the sink finds it, unless the prepare handler has not stashed it yet. */
  lemma TakeTells(mint: Mint, s: System, t: nat, req: Request, id: string)
    requires Inv(mint, s) && TakersDistinct(s) && t < |s.threads| && TakesFor(s.threads[t], id)
    ensures IsTold(s, id)
    ensures IsTold(Step(mint, s, t, req), id) <==> !TakesEarly(s, t, id)
  {
    var s' := Step(mint, s, t, req);
    TakingChanges(mint, s, t, req);
    assert ThreadsOk(mint, s);
    TakerHasSettled(mint, s, t, id);
    assert IsBeingTold(s, id) && SinkConserved(s, id);
    hide Step;
    if id in s.store.notify {
      assert EmitsFor(s'.threads[t], id);
      assert IsBeingTold(s', id);
      assert TerminalEvents(s.log, id) == 0 && !IsCarried(s, id);
      if IsStashDue(s, id) {
        StashIsCarried(s, id);
      }
    } else {
      CreatingIsAlone(mint, s);
      UntakenSink(s, s', t, id);
    }
  }

  lemma StashIsCarried(s: System, id: string)
    requires IsStashDue(s, id)
    ensures IsCarried(s, id)
  {
  }

  lemma CreatingIsAlone(mint: Mint, s: System)
    requires ThreadsOk(mint, s)
    ensures forall i :: 0 <= i < |s.threads| && s.threads[i].Creating? ==> s.threads[i].id !in s.store.payments
  {
    forall i | 0 <= i < |s.threads| && s.threads[i].Creating? ensures s.threads[i].id !in s.store.payments {
      assert ThreadOk(mint, s, s.threads[i]);
    }
  }

  lemma TakingChanges(mint: Mint, s: System, t: nat, req: Request)
    requires t < |s.threads| && s.threads[t].Taking?
    ensures var s', id := Step(mint, s, t, req), s.threads[t].id;
      s'.store.payments == s.store.payments && s'.given == s.given && s'.log == s.log
      && s'.threads == s.threads[t := if id in s.store.notify
                                      then Emitting(Event(s.threads[t].kind, id, s.store.notify[id])) else Idle]
  {
  }

  /** A sink that is carried is being told of, or is due to be stashed, but not both. */
  lemma CarrierTellsOrStashes(s: System, id: string)
    requires CarriersDistinct(s) && IsCarried(s, id) && !StillOpen(s, id)
    requires forall i :: 0 <= i < |s.threads| && s.threads[i].Creating? ==> s.threads[i].id !in s.store.payments
    ensures IsStashDue(s, id) <==> !exists i :: 0 <= i < |s.threads| && EmitsFor(s.threads[i], id)
  {
    var c :| 0 <= c < |s.threads| && CarriesFor(s.threads[c], id);
    assert EmitsFor(s.threads[c], id) <==> Prepares(s.threads[c]) != Some(id);
    assert forall i :: 0 <= i < |s.threads| && EmitsFor(s.threads[i], id) ==> CarriesFor(s.threads[i], id);
    hide EmitsFor, CarriesFor, Prepares;
  }

  lemma UntakenSink(s: System, s': System, t: nat, id: string)
    requires TakersDistinct(s) && CarriersDistinct(s) && SinkConserved(s, id) && SinksGiven(s)
    requires t < |s.threads| && TakesFor(s.threads[t], id) && id !in s.store.notify
    requires forall i :: 0 <= i < |s.threads| && s.threads[i].Creating? ==> s.threads[i].id !in s.store.payments
    requires s'.store.payments == s.store.payments && s'.given == s.given && s'.log == s.log
    requires s'.threads == s.threads[t := Idle] && !StillOpen(s, id)
    ensures IsTold(s', id) <==> !TakesEarly(s, t, id)
  {
    assert IsBeingTold(s', id) <==> exists i :: 0 <= i < |s.threads| && EmitsFor(s.threads[i], id) by {
      OnlyEmittersLeft(s, s', t, id);
    }
    if IsCarried(s, id) {
      CarrierTellsOrStashes(s, id);
      CarriedIsGiven(s, id);
    } else if IsStashDue(s, id) {
      StashIsCarried(s, id);
    }
    hide EmitsFor, IsStashDue, IsCarried, IsBeingTold, TakersDistinct, CarriersDistinct, SinksGiven;
  }

  lemma CarriedIsGiven(s: System, id: string)
    requires SinksGiven(s) && IsCarried(s, id)
    ensures id in s.given
  {
    var i :| 0 <= i < |s.threads| && CarriesFor(s.threads[i], id);
    assert IsGiven(s.given, s.threads[i]);
  }

  lemma OnlyEmittersLeft(s: System, s': System, t: nat, id: string)
    requires TakersDistinct(s) && t < |s.threads| && TakesFor(s.threads[t], id) && s'.threads == s.threads[t := Idle]
    ensures IsBeingTold(s', id) <==> exists i :: 0 <= i < |s.threads| && EmitsFor(s.threads[i], id)
  {
    if i :| 0 <= i < |s.threads| && EmitsFor(s.threads[i], id) {
      assert s'.threads[i] == s.threads[i];
    }
  }

  lemma StepTells(mint: Mint, s: System, t: nat, req: Request, id: string)
    requires Inv(mint, s) && IsInjective(mint) && TakersDistinct(s)
    ensures IsTold(Step(mint, s, t, req), id) <==> IsTold(s, id) && !TakesEarly(s, t, id)
  {
    if t < |s.threads| {
      var a := s.threads[t];
      if a == Idle {
        BeginTells(mint, s, t, req, id);
      } else if NextCall(a).None? {
        DeliverTells(mint, s, t, req, id);
      } else if TakesFor(a, id) {
        TakeTells(mint, s, t, req, id);
      } else {
        CallTells(mint, s, t, req, id);
      }
      hide Inv, TakersDistinct, IsTold, IsStashDue;
    }
  }

  // ----- every run -----

  lemma {:induction false} RunKeepsTakersDistinct(mint: Mint, n: nat, schedule: Schedule)
    requires IsInjective(mint)
    ensures TakersDistinct(Run(mint, n, schedule))
  {
    if schedule != [] {
      var front, last := schedule[..|schedule| - 1], schedule[|schedule| - 1];
      RunKeepsTakersDistinct(mint, n, front);
      RunKeeps(mint, n, front);
      hide Step, Inv, TakersDistinct;
      StepKeepsTakersDistinct(mint, Run(mint, n, front), last.0, last.1);
    }
  }

  predicate NeverTakenEarly(mint: Mint, n: nat, schedule: Schedule, id: string) {
    forall k :: 0 <= k < |schedule| ==> !TakesEarly(Run(mint, n, schedule[..k]), schedule[k].0, id)
  }

  lemma NeverTakenEarlyFront(mint: Mint, n: nat, schedule: Schedule, id: string)
    requires schedule != []
    ensures var front, last := schedule[..|schedule| - 1], schedule[|schedule| - 1];
      NeverTakenEarly(mint, n, schedule, id)
      <==> NeverTakenEarly(mint, n, front, id) && !TakesEarly(Run(mint, n, front), last.0, id)
  {
    hide Run, TakesEarly;
    var front := schedule[..|schedule| - 1];
    assert forall k :: 0 <= k < |front| ==> front[..k] == schedule[..k] && front[k] == schedule[k];
  }

  lemma {:induction false} RunTells(mint: Mint, n: nat, schedule: Schedule, id: string)
    requires IsInjective(mint)
    ensures IsTold(Run(mint, n, schedule), id) <==> NeverTakenEarly(mint, n, schedule, id)
  {
    if schedule != [] {
      var front, last := schedule[..|schedule| - 1], schedule[|schedule| - 1];
      RunTells(mint, n, front, id);
      RunKeeps(mint, n, front);
      RunKeepsTakersDistinct(mint, n, front);
      NeverTakenEarlyFront(mint, n, schedule, id);
      hide Step, Inv, TakersDistinct, IsTold, TakesEarly, NeverTakenEarly;
      StepTells(mint, Run(mint, n, front), last.0, last.1, id);
    }
  }

  /**
   Once no handler is in flight: a payment that gave a sink has had exactly one terminal event if it
   settled, and none if it did not, if and only if no handler ever looked for the sink before the
   prepare handler had stashed it.
   */
  lemma NotifiedIffNeverTakenEarly(mint: Mint, n: nat, schedule: Schedule, id: string)
    requires IsInjective(mint) && IsQuiet(Run(mint, n, schedule)) && id in Run(mint, n, schedule).given
    requires id in Run(mint, n, schedule).store.payments
    ensures var s := Run(mint, n, schedule);
      (TerminalEvents(s.log, id) == if IsSettled(s.store.payments[id].status) then 1 else 0)
      <==> NeverTakenEarly(mint, n, schedule, id)
  {
    RunTells(mint, n, schedule, id);
    SinkSpentOrKept(mint, n, schedule, id);
    hide Run;
  }

  // ----- clients that wait -----

  predicate IsPreparing(s: System, id: string) {
    exists i :: 0 <= i < |s.threads| && Prepares(s.threads[i]) == Some(id)
  }

  /** Thread `t` is about to confirm or cancel `id` while the prepare handler of `id` is still in flight. */
  predicate Overtakes(s: System, t: nat, id: string) {
    t < |s.threads| && IsPreparing(s, id)
    && s.threads[t].Calling? && (s.threads[t].call.Confirm? || s.threads[t].call.Cancel?) && s.threads[t].call.id == id
  }

  /** No confirm or cancel of `id` reaches the store before the prepare handler of `id` has finished. */
  predicate IsPatient(mint: Mint, n: nat, schedule: Schedule, id: string) {
    forall k :: 0 <= k < |schedule| ==> !Overtakes(Run(mint, n, schedule[..k]), schedule[k].0, id)
  }

  /** What a prepare handler in flight has stored under `id` has not settled. */
  predicate PreparedIsOpen(s: System, id: string) {
    IsPreparing(s, id) ==> StillOpen(s, id)
  }

  lemma NotPendingWhilePreparing(mint: Mint, s: System, id: string)
    requires ThreadsOk(mint, s) && IsPreparing(s, id)
    ensures id !in s.store.pending
  {
    var i :| 0 <= i < |s.threads| && Prepares(s.threads[i]) == Some(id);
    assert ThreadOk(mint, s, s.threads[i]);
  }

  /** Whoever prepares a payment after a call prepared it before, and was past creating it. */
  lemma PreparedBefore(mint: Mint, s: System, t: nat, req: Request, i: nat)
    requires t < |s.threads| && NextCall(s.threads[t]).Some? && i < |s.threads|
    requires Prepares(Step(mint, s, t, req).threads[i]).Some?
    ensures Prepares(s.threads[i]) == Prepares(Step(mint, s, t, req).threads[i])
    ensures i == t ==> !s.threads[t].Creating?
  {
    var a := s.threads[t];
    var r := Apply(s.store, NextCall(a).value).1;
    assert Prepares(After(a, r)).Some? ==> Prepares(After(a, r)) == Prepares(a) && !a.Creating?;
    hide Apply, After, Prepares;
  }

  lemma CallKeepsPreparedOpen(mint: Mint, s: System, t: nat, req: Request, id: string)
    requires ThreadsOk(mint, s) && PreparersDistinct(s) && PreparedIsOpen(s, id) && !Overtakes(s, t, id)
    requires t < |s.threads| && NextCall(s.threads[t]).Some? && IsPreparing(Step(mint, s, t, req), id)
    ensures StillOpen(Step(mint, s, t, req), id)
  {
    var s', a := Step(mint, s, t, req), s.threads[t];
    CallStepShape(mint, s, t, req);
    var i :| 0 <= i < |s'.threads| && Prepares(s'.threads[i]) == Some(id);
    PreparedBefore(mint, s, t, req, i);
    assert IsPreparing(s, id) && ThreadOk(mint, s, a);
    NotPendingWhilePreparing(mint, s, id);
    assert a.Creating? ==> a.id != id;
    SettlingAnswers(s.store, NextCall(a).value, id);
    hide Apply, After, ThreadsOk, PreparersDistinct, IsIssued, Step, IsPreparing;
  }

  lemma StepKeepsPreparedOpen(mint: Mint, s: System, t: nat, req: Request, id: string)
    requires Inv(mint, s) && IsInjective(mint) && PreparedIsOpen(s, id) && !Overtakes(s, t, id)
    ensures PreparedIsOpen(Step(mint, s, t, req), id)
  {
    if t < |s.threads| && IsPreparing(Step(mint, s, t, req), id) {
      if NextCall(s.threads[t]).Some? {
        CallKeepsPreparedOpen(mint, s, t, req, id);
      } else {
        LocalStepShape(mint, s, t, req);
        MintIsFresh(mint, s, s.counter);
        hide Step, Prepares, Inv, NextCall;
      }
    }
  }

  lemma {:induction false} PatientRunKeepsPreparedOpen(mint: Mint, n: nat, schedule: Schedule, id: string)
    requires IsInjective(mint) && IsPatient(mint, n, schedule, id)
    ensures PreparedIsOpen(Run(mint, n, schedule), id)
  {
    if schedule != [] {
      var front, last := schedule[..|schedule| - 1], schedule[|schedule| - 1];
      PatientFront(mint, n, schedule, |front|, id);
      PatientRunKeepsPreparedOpen(mint, n, front, id);
      RunKeeps(mint, n, front);
      assert !Overtakes(Run(mint, n, front), last.0, id);
      hide Step, Inv, PreparedIsOpen, Overtakes, IsPatient;
      StepKeepsPreparedOpen(mint, Run(mint, n, front), last.0, last.1, id);
    }
  }

  lemma PatientFront(mint: Mint, n: nat, schedule: Schedule, count: nat, id: string)
    requires IsPatient(mint, n, schedule, id) && count <= |schedule|
    ensures IsPatient(mint, n, schedule[..count], id)
  {
    hide Run, Overtakes;
    forall k | 0 <= k < count ensures !Overtakes(Run(mint, n, schedule[..count][..k]), schedule[..count][k].0, id) {
      assert schedule[..count][..k] == schedule[..k];
    }
  }

  /** Whoever looks for a sink has settled its payment, so one that is open while prepared is not looked at early. */
  lemma OpenIsNotEarly(mint: Mint, s: System, t: nat, id: string)
    requires Inv(mint, s) && PreparedIsOpen(s, id)
    ensures !TakesEarly(s, t, id)
  {
    if TakesEarly(s, t, id) {
      TakerHasSettled(mint, s, t, id);
    }
  }

  lemma PatientIsNeverEarly(mint: Mint, n: nat, schedule: Schedule, id: string)
    requires IsInjective(mint) && IsPatient(mint, n, schedule, id)
    ensures NeverTakenEarly(mint, n, schedule, id)
  {
    forall k | 0 <= k < |schedule| ensures !TakesEarly(Run(mint, n, schedule[..k]), schedule[k].0, id) {
      PatientFront(mint, n, schedule, k, id);
      PatientRunKeepsPreparedOpen(mint, n, schedule[..k], id);
      RunKeeps(mint, n, schedule[..k]);
      hide Run, PreparedIsOpen, TakesEarly;
      OpenIsNotEarly(mint, Run(mint, n, schedule[..k]), schedule[k].0, id);
    }
  }

  /**
   If nobody confirms or cancels this one payment before its prepare handler has finished, it has had
   exactly one terminal event once it settles, whatever happens to every other payment.
   */
  lemma PatientRunsNotifyExactlyOnce(mint: Mint, n: nat, schedule: Schedule, id: string)
    requires IsInjective(mint) && IsPatient(mint, n, schedule, id) && IsQuiet(Run(mint, n, schedule))
    requires var s := Run(mint, n, schedule); id in s.given && id in s.store.payments
    ensures var s := Run(mint, n, schedule);
      TerminalEvents(s.log, id) == if IsSettled(s.store.payments[id].status) then 1 else 0
  {
    PatientIsNeverEarly(mint, n, schedule, id);
    NotifiedIffNeverTakenEarly(mint, n, schedule, id);
    hide Run;
  }

  lemma LoneThreadIsNotEarly(s: System, t: nat, id: string)
    requires |s.threads| == 1
    ensures !TakesEarly(s, t, id)
  {
  }

  /** One handler at a time never looks too early, whatever the order of the requests. */
  lemma OneAtATimeIsNeverEarly(mint: Mint, schedule: Schedule, id: string)
    ensures NeverTakenEarly(mint, 1, schedule, id)
  {
    hide Run, TakesEarly;
    forall k | 0 <= k < |schedule| ensures !TakesEarly(Run(mint, 1, schedule[..k]), schedule[k].0, id) {
      ThreadCount(mint, 1, schedule[..k]);
      LoneThreadIsNotEarly(Run(mint, 1, schedule[..k]), schedule[k].0, id);
    }
  }

  lemma {:induction false} ThreadCount(mint: Mint, n: nat, schedule: Schedule)
    ensures |Run(mint, n, schedule).threads| == n
  {
    if schedule != [] {
      ThreadCount(mint, n, schedule[..|schedule| - 1]);
    }
  }
}
