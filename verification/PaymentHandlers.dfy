/**
 The five payment handlers as threads over the stores. A thread does one atomic store operation, or
 one delivery, per step; any number of threads are interleaved in any order.
 */
module PaymentHandlers {
  import opened Identifiers
  import opened PaymentStore
  import opened Wrappers

  // ----- events -----

  datatype Kind = CompletedEvent | CancelledEvent | DeniedEvent | ReservedEvent | PendingEvent

  /** A CloudEvent handed over for delivery to a payment's sink. */
  datatype Event = Event(kind: Kind, paymentId: string, target: Target)

  predicate IsTerminal(k: Kind) {
    k.CompletedEvent? || k.CancelledEvent? || k.DeniedEvent?
  }

  /** The payment status a terminal event reports. */
  function StatusOf(k: Kind): Status
    requires IsTerminal(k)
  {
    match k
    case CompletedEvent => Succeeded
    case CancelledEvent => Cancelled
    case DeniedEvent => Denied
  }

  predicate IsSettled(s: Status) {
    s == Succeeded || s == Cancelled || s == Denied
  }

  function TerminalEvents(log: seq<Event>, id: string): nat {
    if log == [] then 0
    else
      var e := log[|log| - 1];
      TerminalEvents(log[..|log| - 1], id) + if IsTerminal(e.kind) && e.paymentId == id then 1 else 0
  }

  // ----- handlers -----

  /** Requests that passed authorisation, parsing and the identifier and amount checks. */
  datatype Request =
    | CreatePayment(tx: string, target: Option<Target>, now: string)
    | PreparePayment(phone: string, tx: string, target: Option<Target>, now: string)
    | OnPayment(call: Call)

  /** The calls a validate, confirm, cancel, retrieve or list request starts with. */
  predicate IsRequestCall(c: Call) {
    c.Validate? || c.Confirm? || c.Cancel? || c.Get? || c.All?
  }

  /** Where a handler stands: the store call or delivery it is about to make. */
  datatype Activation =
    | Idle
    | Creating(id: string, payment: Payment, given: Option<Target>)
    | Preparing(id: string, payment: Payment, given: Option<Target>, validation: Option<Validation>)
    | Announcing(event: Event, validation: Option<Validation>)
    | Stashing(id: string, target: Target, validation: Option<Validation>)
    | Awaiting(id: string, awaited: Validation)
    | Calling(call: Call)
    | Taking(id: string, kind: Kind)
    | Emitting(event: Event)

  function NextCall(a: Activation): Option<Call> {
    match a
    case Creating(id, payment, _) => Some(Insert(id, payment))
    case Preparing(id, payment, _, _) => Some(Insert(id, payment))
    case Stashing(id, target, _) => Some(InsertNotify(id, target))
    case Awaiting(id, validation) => Some(InsertPending(id, validation))
    case Calling(call) => Some(call)
    case Taking(id, _) => Some(TakeNotify(id))
    case _ => None
  }

  function AwaitOrFinish(id: string, validation: Option<Validation>): Activation {
    if validation.Some? then Awaiting(id, validation.value) else Idle
  }

  /** What a handler does next once its store call has answered. */
  function After(a: Activation, r: Outcome): Activation {
    match a
    case Creating(id, _, given) =>
      if given.Some? then Emitting(Event(CompletedEvent, id, given.value)) else Idle
    case Preparing(id, _, given, validation) =>
      if given.Some? then
        Announcing(Event(if validation.Some? then PendingEvent else ReservedEvent, id, given.value), validation)
      else AwaitOrFinish(id, validation)
    case Stashing(id, _, validation) => AwaitOrFinish(id, validation)
    case Calling(call) =>
      if call.Confirm? && r.Confirmed? then Taking(call.id, CompletedEvent)
      else if call.Cancel? && r.CancelledNow? then Taking(call.id, CancelledEvent)
      else if call.Validate? && r.ValidationFailed? then Taking(call.id, DeniedEvent)
      else Idle
    case Taking(id, kind) =>
      if r.Taken? && r.target.Some? then Emitting(Event(kind, id, r.target.value)) else Idle
    case _ => Idle
  }

  // ----- the interleaved system -----

  /**
   `given` records the sink each request supplied and `wins` every successful confirm or cancel;
   no handler reads them.
   */
  datatype System = System(
    store: Store, counter: nat, threads: seq<Activation>, log: seq<Event>,
    given: map<string, Target>, wins: multiset<string>)

  const VALIDATION_ATTEMPTS := 3

  /** Minted ids: a function of a counter that only moves forward. */
  type Mint = nat -> string

  ghost predicate IsInjective(mint: Mint) {
    forall i: nat, j: nat :: mint(i) == mint(j) ==> i == j
  }

  function Record(given: map<string, Target>, id: string, target: Option<Target>): map<string, Target> {
    if target.Some? then given[id := target.value] else given
  }

  function Begin(mint: Mint, s: System, t: nat, req: Request): System
    requires t < |s.threads|
  {
    match req
    case CreatePayment(tx, target, now) =>
      var id := mint(s.counter);
      var payment := Payment(id, tx, Succeeded, now, Some(now), None);
      s.(counter := s.counter + 1, given := Record(s.given, id, target),
         threads := s.threads[t := Creating(id, payment, target)])
    case PreparePayment(phone, tx, target, now) =>
      var id := mint(s.counter);
      if RequiresValidation(phone) then
        var v := Validation(mint(s.counter + 1), OtpCode(phone), VALIDATION_ATTEMPTS);
        var payment := Payment(id, tx, PendingValidation, now, None, Some(v.authorizationId));
        s.(counter := s.counter + 2, given := Record(s.given, id, target),
           threads := s.threads[t := Preparing(id, payment, target, Some(v))])
      else
        var payment := Payment(id, tx, Reserved, now, None, None);
        s.(counter := s.counter + 1, given := Record(s.given, id, target),
           threads := s.threads[t := Preparing(id, payment, target, None)])
    case OnPayment(call) =>
      if IsRequestCall(call) then s.(threads := s.threads[t := Calling(call)]) else s
  }

  /** Thread `t` takes its next step; an idle one begins `req`. */
  function Step(mint: Mint, s: System, t: nat, req: Request): System {
    if t >= |s.threads| then s
    else
      match s.threads[t]
      case Idle => Begin(mint, s, t, req)
      case Announcing(event, validation) =>
        s.(counter := s.counter + 1, log := s.log + [event],
           threads := s.threads[t := Stashing(event.paymentId, event.target, validation)])
      case Emitting(event) =>
        s.(counter := s.counter + 1, log := s.log + [event], threads := s.threads[t := Idle])
      case a =>
        var (store, r) := Apply(s.store, NextCall(a).value);
        s.(store := store, threads := s.threads[t := After(a, r)],
           wins := if r.Confirmed? || r.CancelledNow? then s.wins + multiset{NextCall(a).value.id} else s.wins)
  }

  function Init(n: nat): System {
    System(EMPTY, 0, seq(n, _ => Idle), [], map[], multiset{})
  }

  /** Each entry of a schedule names the thread to step, and the request it begins if it is idle. */
  function Run(mint: Mint, n: nat, schedule: seq<(nat, Request)>): System {
    if schedule == [] then Init(n)
    else
      var last := schedule[|schedule| - 1];
      Step(mint, Run(mint, n, schedule[..|schedule| - 1]), last.0, last.1)
  }

  predicate IsQuiet(s: System) {
    forall i :: 0 <= i < |s.threads| ==> s.threads[i] == Idle
  }
}
