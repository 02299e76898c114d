/** What every validation call answers while the payment handlers interleave. */
module PaymentValidation {
  import opened Identifiers
  import opened Otp
  import opened PaymentDelivery
  import opened PaymentGuarantees
  import opened PaymentHandlers
  import opened PaymentInvariant
  import opened PaymentPromises
  import opened PaymentStore
  import opened Wrappers

  /** The store call thread `t` makes in its next step. */
  function CallMade(s: System, t: nat): Option<Call> {
    if t < |s.threads| then NextCall(s.threads[t]) else None
  }

  /** The validation registered for `id`, and the codes presented for it since with the right authorization id. */
  datatype Registration = Unregistered | Registered(validation: Validation, attempts: seq<string>)

  function Note(r: Registration, c: Option<Call>, id: string): Registration {
    if c.None? then r
    else
      match c.value
      case InsertPending(i, v) => if i == id then Registered(v, []) else r
      case Validate(i, authorizationId, code) =>
        if i == id && r.Registered? && authorizationId == r.validation.authorizationId
        then r.(attempts := r.attempts + [code]) else r
      case _ => r
  }

  function RegistrationOf(mint: Mint, n: nat, schedule: Schedule, id: string): Registration {
    if schedule == [] then Unregistered
    else
      var front, last := schedule[..|schedule| - 1], schedule[|schedule| - 1];
      Note(RegistrationOf(mint, n, front, id), CallMade(Run(mint, n, front), last.0), id)
  }

  // ----- the stores hold what is left of the registration -----

  ghost predicate Tracks(mint: Mint, s: System, id: string, r: Registration) {
    match r
    case Unregistered => id !in s.store.pending
    case Registered(v, attempts) =>
      v.attemptsLeft == VALIDATION_ATTEMPTS && Reflects(s.store, v, id, attempts)
      && IsIssued(mint, s.counter, id) && !IsPreparing(s, id)
  }

  lemma RegisteringTracks(mint: Mint, s: System, t: nat, req: Request)
    requires Inv(mint, s) && t < |s.threads| && s.threads[t].Awaiting?
    ensures Tracks(mint, Step(mint, s, t, req), s.threads[t].id, Registered(s.threads[t].awaited, []))
  {
    var s', id := Step(mint, s, t, req), s.threads[t].id;
    assert ThreadOk(mint, s, s.threads[t]);
    assert Prepares(s.threads[t]) == Some(id);
    assert s'.threads == s.threads[t := Idle];
    assert forall i :: 0 <= i < |s.threads| && i != t ==> Prepares(s.threads[i]) != Some(id);
    hide IsIssued;
  }

  lemma PreparedAfterCall(mint: Mint, s: System, t: nat, req: Request, id: string)
    requires t < |s.threads| && NextCall(s.threads[t]).Some? && IsPreparing(Step(mint, s, t, req), id)
    ensures IsPreparing(s, id)
  {
    var s' := Step(mint, s, t, req);
    CallStepShape(mint, s, t, req);
    hide Step;
    var i :| 0 <= i < |s'.threads| && Prepares(s'.threads[i]) == Some(id);
    PreparedBefore(mint, s, t, req, i);
  }

  lemma CallTracks(mint: Mint, s: System, t: nat, req: Request, id: string, r: Registration)
    requires Inv(mint, s) && Tracks(mint, s, id, r) && t < |s.threads| && NextCall(s.threads[t]).Some?
    requires !(s.threads[t].Awaiting? && s.threads[t].id == id)
    ensures Tracks(mint, Step(mint, s, t, req), id, Note(r, NextCall(s.threads[t]), id))
  {
    var a := s.threads[t];
    var c := NextCall(a).value;
    var s' := Step(mint, s, t, req);
    assert ThreadsOk(mint, s) && ThreadOk(mint, s, a);
    CallStepShape(mint, s, t, req);
    assert s'.counter == s.counter;
    assert c.Insert? || c.InsertPending? ==> Prepares(a) == Some(c.id);
    assert c.InsertPending? ==> a.Awaiting? && a.id == c.id;
    if r.Registered? {
      assert c.Insert? && c.id == id ==> IsPreparing(s, id);
      CallReflects(s.store, r.validation, id, r.attempts, c);
      if IsPreparing(s', id) {
        PreparedAfterCall(mint, s, t, req, id);
        assert false;
      }
    } else {
      OnlyRegistrationAdds(s.store, c, id);
    }
    hide Inv, ThreadsOk, ThreadOk, Step, Apply, After, IsIssued, IsPreparing, NextCall, Prepares, Reflects;
  }

  lemma OnlyRegistrationAdds(s: Store, c: Call, id: string)
    requires id !in s.pending && !(c.InsertPending? && c.id == id)
    ensures id !in Apply(s, c).0.pending
  {
  }

  lemma LocalStepTracks(mint: Mint, s: System, t: nat, req: Request, id: string, r: Registration)
    requires Inv(mint, s) && IsInjective(mint) && Tracks(mint, s, id, r) && CallMade(s, t).None?
    ensures Tracks(mint, Step(mint, s, t, req), id, r)
  {
    if t < |s.threads| {
      var s' := Step(mint, s, t, req);
      LocalStepShape(mint, s, t, req);
      StepRemembers(mint, s, t, req);
      StaysIssued(mint, s.counter, s'.counter);
      FreshIsNew(mint, s.counter, s.counter);
      hide Inv, Step, Prepares, NextCall, IsIssued, Reflects;
    }
  }

  lemma {:induction false} RunTracks(mint: Mint, n: nat, schedule: Schedule, id: string)
    requires IsInjective(mint)
    ensures Tracks(mint, Run(mint, n, schedule), id, RegistrationOf(mint, n, schedule, id))
  {
    if schedule != [] {
      var front, last := schedule[..|schedule| - 1], schedule[|schedule| - 1];
      var s, r := Run(mint, n, front), RegistrationOf(mint, n, front, id);
      RunTracks(mint, n, front, id);
      RunKeeps(mint, n, front);
      hide Step, Inv, Tracks;
      if CallMade(s, last.0).None? {
        LocalStepTracks(mint, s, last.0, last.1, id, r);
      } else if s.threads[last.0].Awaiting? && s.threads[last.0].id == id {
        RegisteringTracks(mint, s, last.0, last.1);
      } else {
        CallTracks(mint, s, last.0, last.1, id, r);
      }
    }
  }

  // ----- what was registered -----

  /** `v` carries the ids and the code that the prepare request of `id` minted and derived. */
  ghost predicate IsPromised(mint: Mint, n: nat, schedule: Schedule, id: string, v: Validation) {
    exists k: nat, req: Request ::
      Begins(mint, n, schedule, k, req, id) && req.PreparePayment? && RequiresValidation(req.phone)
      && v == Validation(mint(Run(mint, n, schedule[..k]).counter + 1), OtpCode(req.phone), 3)
  }

  lemma StaysPromised(mint: Mint, n: nat, schedule: Schedule, id: string, v: Validation)
    requires schedule != [] && IsPromised(mint, n, schedule[..|schedule| - 1], id, v)
    ensures IsPromised(mint, n, schedule, id, v)
  {
    hide Run, RequiresValidation, OtpCode;
    var front := schedule[..|schedule| - 1];
    var k: nat, req: Request :| Begins(mint, n, front, k, req, id) && req.PreparePayment?
      && RequiresValidation(req.phone)
      && v == Validation(mint(Run(mint, n, front[..k]).counter + 1), OtpCode(req.phone), 3);
    assert front[..k] == schedule[..k];
    assert Begins(mint, n, schedule, k, req, id);
  }

  ghost predicate OwesAsPromised(mint: Mint, n: nat, schedule: Schedule, s: System, id: string) {
    forall i :: 0 <= i < |s.threads| && OwesFor(s.threads[i], id) ==>
      IsPromised(mint, n, schedule, id, Owes(s.threads[i]).value)
  }

  lemma BeginOwes(mint: Mint, s: System, t: nat, req: Request, id: string)
    requires t < |s.threads| && s.threads[t] == Idle
    ensures var s' := Begin(mint, s, t, req);
      OwesFor(s'.threads[t], id) ==>
        id == mint(s.counter) && req.PreparePayment? && RequiresValidation(req.phone)
        && Owes(s'.threads[t]).value == Validation(mint(s.counter + 1), OtpCode(req.phone), 3)
  {
    hide RequiresValidation, OtpCode;
  }

  /** A step other than a beginning owes only what was owed before. */
  lemma StepOwes(mint: Mint, s: System, t: nat, req: Request, i: nat, id: string)
    requires t < |s.threads| && s.threads[t] != Idle
    requires i < |s.threads| && |Step(mint, s, t, req).threads| == |s.threads|
    requires OwesFor(Step(mint, s, t, req).threads[i], id)
    ensures OwesFor(s.threads[i], id) && Owes(s.threads[i]) == Owes(Step(mint, s, t, req).threads[i])
  {
    var s', a := Step(mint, s, t, req), s.threads[t];
    if NextCall(a).Some? {
      var r := Apply(s.store, NextCall(a).value).1;
      CallStepShape(mint, s, t, req);
      if i == t {
        CallKeepsOwing(a, r);
      }
    } else {
      LocalStepShape(mint, s, t, req);
      if i == t {
        LocalStepKeepsOwing(mint, s, t, req);
      }
    }
    hide Step, Apply, After, Owes, Prepares;
  }

  lemma {:induction false} RunOwesAsPromised(mint: Mint, n: nat, schedule: Schedule, id: string)
    ensures OwesAsPromised(mint, n, schedule, Run(mint, n, schedule), id)
  {
    if schedule != [] {
      var front, last := schedule[..|schedule| - 1], schedule[|schedule| - 1];
      var s, s', t := Run(mint, n, front), Run(mint, n, schedule), last.0;
      RunOwesAsPromised(mint, n, front, id);
      ThreadCount(mint, n, front);
      ThreadCount(mint, n, schedule);
      assert s' == Step(mint, s, t, last.1);
      forall i | 0 <= i < |s'.threads| && OwesFor(s'.threads[i], id)
        ensures IsPromised(mint, n, schedule, id, Owes(s'.threads[i]).value)
      {
        NewlyOwed(mint, n, schedule, i, id);
      }
    }
  }

  lemma BeginIsPromised(mint: Mint, n: nat, schedule: Schedule, id: string)
    requires schedule != []
    requires var (s, last) := (Run(mint, n, schedule[..|schedule| - 1]), schedule[|schedule| - 1]);
      last.0 < |s.threads| && s.threads[last.0] == Idle && OwesFor(Begin(mint, s, last.0, last.1).threads[last.0], id)
    ensures var (s, last) := (Run(mint, n, schedule[..|schedule| - 1]), schedule[|schedule| - 1]);
      IsPromised(mint, n, schedule, id, Owes(Begin(mint, s, last.0, last.1).threads[last.0]).value)
  {
    hide Run, RequiresValidation, OtpCode;
    var s, last := Run(mint, n, schedule[..|schedule| - 1]), schedule[|schedule| - 1];
    BeginOwes(mint, s, last.0, last.1, id);
    assert Begins(mint, n, schedule, |schedule| - 1, last.1, id);
    hide Begin;
  }

  lemma NewlyOwed(mint: Mint, n: nat, schedule: Schedule, i: nat, id: string)
    requires schedule != []
    requires OwesAsPromised(mint, n, schedule[..|schedule| - 1], Run(mint, n, schedule[..|schedule| - 1]), id)
    requires i < |Run(mint, n, schedule).threads| && OwesFor(Run(mint, n, schedule).threads[i], id)
    ensures IsPromised(mint, n, schedule, id, Owes(Run(mint, n, schedule).threads[i]).value)
  {
    var front, last := schedule[..|schedule| - 1], schedule[|schedule| - 1];
    var s, s', t := Run(mint, n, front), Run(mint, n, schedule), last.0;
    ThreadCount(mint, n, front);
    ThreadCount(mint, n, schedule);
    assert s' == Step(mint, s, t, last.1);
    assert t < n && s.threads[t] == Idle ==> s' == Begin(mint, s, t, last.1);
    hide Run, Step, IsPromised, RequiresValidation, OtpCode, Begin;
    if t < n && s.threads[t] == Idle && i == t {
      BeginIsPromised(mint, n, schedule, id);
    } else {
      if t < n && s.threads[t] != Idle {
        StepOwes(mint, s, t, last.1, i, id);
      } else if t < n {
        LocalStepShape(mint, s, t, last.1);
      }
      StaysPromised(mint, n, schedule, id, Owes(s'.threads[i]).value);
    }
  }

  /** What is registered for a payment is what its own prepare request minted, with three attempts. */
  lemma {:induction false} RegisteredAsPromised(mint: Mint, n: nat, schedule: Schedule, id: string)
    requires IsInjective(mint)
    ensures var r := RegistrationOf(mint, n, schedule, id);
      r.Registered? ==> IsPromised(mint, n, schedule, id, r.validation)
  {
    if schedule != [] {
      var front, last := schedule[..|schedule| - 1], schedule[|schedule| - 1];
      var s := Run(mint, n, front);
      RegisteredAsPromised(mint, n, front, id);
      RunOwesAsPromised(mint, n, front, id);
      RunKeeps(mint, n, front);
      var before, after := RegistrationOf(mint, n, front, id), RegistrationOf(mint, n, schedule, id);
      hide Run, IsPromised;
      if after.Registered? {
        if before.Registered? && before.validation == after.validation {
          StaysPromised(mint, n, schedule, id, after.validation);
        } else {
          NewlyRegistered(mint, s, last.0, id, after.validation);
          assert OwesFor(s.threads[last.0], id);
          StaysPromised(mint, n, schedule, id, after.validation);
        }
      }
    }
  }

  lemma NewlyRegistered(mint: Mint, s: System, t: nat, id: string, v: Validation)
    requires ThreadsOk(mint, s) && CallMade(s, t) == Some(InsertPending(id, v))
    ensures t < |s.threads| && s.threads[t] == Awaiting(id, v)
  {
    assert ThreadOk(mint, s, s.threads[t]);
  }

  // ----- every answer -----

  lemma ReflectedAnswer(
      t: Store, v: Validation, id: string, attempts: seq<string>, authorizationId: string, code: string)
    requires Reflects(t, v, id, attempts) && v.attemptsLeft == VALIDATION_ATTEMPTS
    ensures Apply(t, Validate(id, authorizationId, code)).1 == Answer(v, attempts, authorizationId, code)
  {
  }

  lemma UnregisteredAnswer(t: Store, id: string, authorizationId: string, code: string)
    requires id !in t.pending
    ensures Apply(t, Validate(id, authorizationId, code)).1 == if id in t.payments then NotPending else Unknown
  {
  }

  /**
   At any point of any interleaved run: a validation call of a payment nobody prepared is answered
   unknown, one before its code was registered is answered not pending, and every other one as a
   function of the codes presented since, against the three attempts and the code its own prepare
   request derived from the phone number.
   */
  lemma EveryValidationAnswer(mint: Mint, n: nat, schedule: Schedule, id: string, authorizationId: string, code: string)
    requires IsInjective(mint)
    ensures var (store, r) := (Run(mint, n, schedule).store, RegistrationOf(mint, n, schedule, id));
      Apply(store, Validate(id, authorizationId, code)).1 ==
        if r.Registered? then Answer(r.validation, r.attempts, authorizationId, code)
        else if id in store.payments then NotPending else Unknown
    ensures var r := RegistrationOf(mint, n, schedule, id);
      r.Registered? ==> IsPromised(mint, n, schedule, id, r.validation)
  {
    RunTracks(mint, n, schedule, id);
    RegisteredAsPromised(mint, n, schedule, id);
    hide Run, RegistrationOf, IsPromised, IsIssued, IsPreparing, Reflects, Apply, Answer;
    var store, r := Run(mint, n, schedule).store, RegistrationOf(mint, n, schedule, id);
    if r.Registered? {
      ReflectedAnswer(store, r.validation, id, r.attempts, authorizationId, code);
    } else {
      UnregisteredAnswer(store, id, authorizationId, code);
    }
  }
}
