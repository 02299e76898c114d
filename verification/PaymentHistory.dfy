/**
 The payments and announcements of every interleaved run, told from the requests and calls that were
 made and not from how a store call computes them.
 */
module PaymentHistory {
  import opened PaymentDelivery
  import opened PaymentGuarantees
  import opened PaymentHandlers
  import opened PaymentInvariant
  import opened PaymentPromises
  import opened PaymentStore
  import opened PaymentValidation
  import opened Wrappers

  // ----- where a payment comes from -----

  /** The request that began a payment, and the mint counter it found. */
  datatype Origin = NoOrigin | Origin(req: Request, counter: nat)

  function OriginOf(mint: Mint, n: nat, schedule: Schedule, id: string): Origin {
    if schedule == [] then NoOrigin
    else
      var front, last := schedule[..|schedule| - 1], schedule[|schedule| - 1];
      var s := Run(mint, n, front);
      if last.0 < |s.threads| && s.threads[last.0] == Idle && !last.1.OnPayment? && mint(s.counter) == id
      then Origin(last.1, s.counter)
      else OriginOf(mint, n, front, id)
  }

  /** The number ends in 888: its reservation must be validated first. */
  predicate NeedsCode(phone: string) {
    |phone| >= 3 && phone[|phone| - 3..] == "888"
  }

  predicate IsPrepared(o: Origin) {
    o.Origin? && o.req.PreparePayment?
  }

  function Announcement(o: Origin): Kind
    requires IsPrepared(o)
  {
    if NeedsCode(o.req.phone) then PendingEvent else ReservedEvent
  }

  /** The payment its request stores. */
  function FirstRecord(mint: Mint, o: Origin, id: string): Payment
    requires o.Origin? && !o.req.OnPayment?
  {
    if o.req.CreatePayment? then Payment(id, o.req.tx, Succeeded, o.req.now, Some(o.req.now), None)
    else if NeedsCode(o.req.phone) then
      Payment(id, o.req.tx, PendingValidation, o.req.now, None, Some(mint(o.counter + 1)))
    else Payment(id, o.req.tx, Reserved, o.req.now, None, None)
  }

  /** A handler in flight goes about what its request asked for. */
  predicate Pursues(mint: Mint, a: Activation, id: string, o: Origin) {
    Prepares(a) == Some(id) ==>
      o.Origin? && !o.req.OnPayment?
      && match a
         case Creating(_, p, given) => o.req.CreatePayment? && given == o.req.target && p == FirstRecord(mint, o, id)
         case Preparing(_, p, given, v) =>
           (o.req.PreparePayment? && given == o.req.target && p == FirstRecord(mint, o, id)
            && (v.Some? <==> NeedsCode(o.req.phone)))
         case Announcing(e, _) => (o.req.PreparePayment? && o.req.target == Some(e.target) && e.kind == Announcement(o))
         case _ => o.req.PreparePayment?
  }

  ghost predicate OriginOk(mint: Mint, s: System, id: string, o: Origin) {
    (o.Origin? ==> o.counter < s.counter && mint(o.counter) == id && !o.req.OnPayment?)
    && forall i :: 0 <= i < |s.threads| ==> Pursues(mint, s.threads[i], id, o)
  }

  lemma CallPursues(mint: Mint, a: Activation, r: Outcome, id: string, o: Origin)
    requires NextCall(a).Some? && Pursues(mint, a, id, o)
    ensures Pursues(mint, After(a, r), id, o)
  {
  }

  lemma DeliveryPursues(mint: Mint, s: System, t: nat, req: Request, id: string, o: Origin)
    requires t < |s.threads| && (s.threads[t].Announcing? || s.threads[t].Emitting?)
    requires Pursues(mint, s.threads[t], id, o)
    ensures var s' := Step(mint, s, t, req); t < |s'.threads| && Pursues(mint, s'.threads[t], id, o)
  {
  }

  lemma BeginPursues(mint: Mint, s: System, t: nat, req: Request, id: string)
    requires t < |s.threads| && s.threads[t] == Idle
    ensures var s' := Begin(mint, s, t, req);
      |s'.threads| == |s.threads| && s'.threads == s.threads[t := s'.threads[t]]
      && if req.OnPayment? then Prepares(s'.threads[t]).None? && s'.counter == s.counter
         else Prepares(s'.threads[t]) == Some(mint(s.counter)) && s.counter < s'.counter
              && Pursues(mint, s'.threads[t], mint(s.counter), Origin(req, s.counter))
  {
  }

  lemma {:induction false} RunKeepsOrigin(mint: Mint, n: nat, schedule: Schedule, id: string)
    requires IsInjective(mint)
    ensures OriginOk(mint, Run(mint, n, schedule), id, OriginOf(mint, n, schedule, id))
  {
    if schedule != [] {
      var front, last := schedule[..|schedule| - 1], schedule[|schedule| - 1];
      RunKeepsOrigin(mint, n, front, id);
      RunKeeps(mint, n, front);
      hide Step, Inv, OriginOk;
      StepKeepsOrigin(mint, Run(mint, n, front), last.0, last.1, id, OriginOf(mint, n, front, id));
    }
  }

  function NextOrigin(mint: Mint, s: System, t: nat, req: Request, id: string, o: Origin): Origin {
    if t < |s.threads| && s.threads[t] == Idle && !req.OnPayment? && mint(s.counter) == id then Origin(req, s.counter)
    else o
  }

  lemma StepKeepsOrigin(mint: Mint, s: System, t: nat, req: Request, id: string, o: Origin)
    requires Inv(mint, s) && IsInjective(mint) && OriginOk(mint, s, id, o)
    ensures OriginOk(mint, Step(mint, s, t, req), id, NextOrigin(mint, s, t, req, id, o))
  {
    if t < |s.threads| {
      var a := s.threads[t];
      if a == Idle {
        MintIsFresh(mint, s, s.counter);
        BeginPursues(mint, s, t, req, id);
        hide Inv, Begin;
      } else if NextCall(a).Some? {
        CallStepShape(mint, s, t, req);
        CallPursues(mint, a, Apply(s.store, NextCall(a).value).1, id, o);
        hide Inv, Apply, After, Pursues;
        assert Step(mint, s, t, req).counter == s.counter;
      } else {
        LocalStepShape(mint, s, t, req);
        DeliveryPursues(mint, s, t, req, id, o);
        assert Step(mint, s, t, req).counter == s.counter + 1;
        hide Inv, Step, Pursues;
      }
    }
  }

  // ----- what has become of a payment -----

  datatype Fate =
    | NotStored
    | ChargedAtOnce
    | AwaitsCode
    | Open
    | ConfirmedOn(date: string)
    | Released
    | Refused

  /** One call's effect on a payment, from the codes presented for it before. */
  function NextFate(f: Fate, c: Option<Call>, o: Origin, r: Registration, id: string): Fate {
    if c.None? then f
    else
      match c.value
      case Insert(i, _) =>
        if i != id || !o.Origin? then f
        else if o.req.CreatePayment? then ChargedAtOnce
        else if o.req.PreparePayment? && NeedsCode(o.req.phone) then AwaitsCode
        else Open
      case Confirm(i, date) => if i == id && f.Open? then ConfirmedOn(date) else f
      case Cancel(i) => if i == id && f.Open? then Released else f
      case Validate(i, authorizationId, code) =>
        if i != id || !f.AwaitsCode? || !r.Registered? || authorizationId != r.validation.authorizationId then f
        else if code == r.validation.code then Open
        else if |r.attempts| == 2 then Refused
        else f
      case _ => f
  }

  function FateOf(mint: Mint, n: nat, schedule: Schedule, id: string): Fate {
    if schedule == [] then NotStored
    else
      var front, last := schedule[..|schedule| - 1], schedule[|schedule| - 1];
      NextFate(FateOf(mint, n, front, id), CallMade(Run(mint, n, front), last.0),
               OriginOf(mint, n, front, id), RegistrationOf(mint, n, front, id), id)
  }

  /** The payment as its request and its fate have it: only status, date and authorization id ever differ. */
  function RecordOf(mint: Mint, o: Origin, f: Fate, id: string): Payment
    requires o.Origin? && !o.req.OnPayment? && !f.NotStored?
  {
    var tx, created := o.req.tx, o.req.now;
    match f
    case ChargedAtOnce => Payment(id, tx, Succeeded, created, Some(created), None)
    case AwaitsCode => Payment(id, tx, PendingValidation, created, None, Some(mint(o.counter + 1)))
    case Open => Payment(id, tx, Reserved, created, None, None)
    case ConfirmedOn(date) => Payment(id, tx, Succeeded, created, Some(date), None)
    case Released => Payment(id, tx, Cancelled, created, None, None)
    case Refused => Payment(id, tx, Denied, created, None, None)
  }

  predicate LedgerOk(mint: Mint, payments: map<string, Payment>, id: string, o: Origin, f: Fate) {
    (f.NotStored? <==> id !in payments)
    && (id in payments ==> o.Origin? && !o.req.OnPayment? && payments[id] == RecordOf(mint, o, f, id))
  }

  lemma OtherCallsKeepPayment(s: Store, c: Call, id: string)
    requires !((c.Insert? || c.Confirm? || c.Cancel? || c.Validate?) && c.id == id)
    ensures var b := Apply(s, c).0.payments;
      (id in b <==> id in s.payments) && (id in b ==> b[id] == s.payments[id])
  {
  }

  lemma SettlingLedger(mint: Mint, s: Store, c: Call, id: string, o: Origin, f: Fate, r: Registration)
    requires LedgerOk(mint, s.payments, id, o, f) && (c.Confirm? || c.Cancel?) && c.id == id
    ensures LedgerOk(mint, Apply(s, c).0.payments, id, o, NextFate(f, Some(c), o, r, id))
  {
  }

  /** The registered validation still stands exactly while the payment awaits its code. */
  predicate Stands(s: Store, id: string, r: Registration) {
    (r.Unregistered? ==> id !in s.pending)
    && (r.Registered? && id in s.payments && s.payments[id].status == PendingValidation ==>
          id in s.pending && |r.attempts| < 3 && s.pending[id] == r.validation.(attemptsLeft := 3 - |r.attempts|))
    && (id in s.pending ==> id in s.payments && s.payments[id].status == PendingValidation)
  }

  lemma ValidatingLedger(mint: Mint, s: Store, c: Call, id: string, o: Origin, f: Fate, r: Registration)
    requires LedgerOk(mint, s.payments, id, o, f) && c.Validate? && c.id == id && Stands(s, id, r)
    ensures LedgerOk(mint, Apply(s, c).0.payments, id, o, NextFate(f, Some(c), o, r, id))
  {
  }

  lemma RegistrationStands(mint: Mint, s: System, id: string, r: Registration)
    requires Inv(mint, s) && Tracks(mint, s, id, r)
    ensures Stands(s.store, id, r)
  {
    if r.Registered? && id in s.store.payments && s.store.payments[id].status == PendingValidation {
      assert id in s.store.pending || IsOwed(s, id);
      assert IsOwed(s, id) ==> IsPreparing(s, id);
    }
    hide IsIssued, ThreadsOk, SinksConserved, SinksGiven;
  }

  lemma StepKeepsLedger(mint: Mint, s: System, t: nat, req: Request, id: string, o: Origin, f: Fate, r: Registration)
    requires Inv(mint, s) && IsInjective(mint) && OriginOk(mint, s, id, o) && Tracks(mint, s, id, r)
    requires LedgerOk(mint, s.store.payments, id, o, f)
    ensures LedgerOk(mint, Step(mint, s, t, req).store.payments, id, NextOrigin(mint, s, t, req, id, o),
                     NextFate(f, CallMade(s, t), o, r, id))
  {
    if CallMade(s, t).None? {
      LocalStepKeepsLedger(mint, s, t, req, id, o, f);
    } else {
      var a := s.threads[t];
      var c := NextCall(a).value;
      CallStepShape(mint, s, t, req);
      RegistrationStands(mint, s, id, r);
      assert ThreadsOk(mint, s) && ThreadOk(mint, s, a) && Pursues(mint, a, id, o);
      assert a != Idle;
      hide Step, Inv, ThreadsOk, OriginOk, Tracks, LedgerOk, Stands;
      if c.Insert? && c.id == id {
        InsertLedger(mint, s, a, id, o, f, r);
      } else if (c.Confirm? || c.Cancel?) && c.id == id {
        SettlingLedger(mint, s.store, c, id, o, f, r);
      } else if c.Validate? && c.id == id {
        ValidatingLedger(mint, s.store, c, id, o, f, r);
      } else {
        OtherLedger(mint, s.store, c, id, o, f, r);
      }
    }
  }

  lemma OtherLedger(mint: Mint, s: Store, c: Call, id: string, o: Origin, f: Fate, r: Registration)
    requires LedgerOk(mint, s.payments, id, o, f)
    requires !((c.Insert? || c.Confirm? || c.Cancel? || c.Validate?) && c.id == id)
    ensures LedgerOk(mint, Apply(s, c).0.payments, id, o, NextFate(f, Some(c), o, r, id))
  {
    OtherCallsKeepPayment(s, c, id);
    hide Apply, RecordOf;
  }

  lemma InsertLedger(mint: Mint, s: System, a: Activation, id: string, o: Origin, f: Fate, r: Registration)
    requires ThreadOk(mint, s, a) && Pursues(mint, a, id, o) && NextCall(a).Some?
    requires NextCall(a).value.Insert? && NextCall(a).value.id == id && LedgerOk(mint, s.store.payments, id, o, f)
    ensures var c := NextCall(a).value;
      LedgerOk(mint, Apply(s.store, c).0.payments, id, o, NextFate(f, Some(c), o, r, id))
  {
    assert Prepares(a) == Some(id);
    hide IsIssued;
  }

  lemma LocalStepKeepsLedger(mint: Mint, s: System, t: nat, req: Request, id: string, o: Origin, f: Fate)
    requires Inv(mint, s) && IsInjective(mint) && CallMade(s, t).None? && LedgerOk(mint, s.store.payments, id, o, f)
    ensures LedgerOk(mint, Step(mint, s, t, req).store.payments, id, NextOrigin(mint, s, t, req, id, o), f)
  {
    if t < |s.threads| {
      LocalStepShape(mint, s, t, req);
      MintIsFresh(mint, s, s.counter);
      hide Step, Inv, RecordOf;
    }
  }

  /** In every run the stored payments are what requests and calls made of them. */
  lemma {:induction false} RunKeepsLedger(mint: Mint, n: nat, schedule: Schedule, id: string)
    requires IsInjective(mint)
    ensures LedgerOk(mint, Run(mint, n, schedule).store.payments, id,
                     OriginOf(mint, n, schedule, id), FateOf(mint, n, schedule, id))
  {
    if schedule != [] {
      var front, last := schedule[..|schedule| - 1], schedule[|schedule| - 1];
      RunKeepsLedger(mint, n, front, id);
      RunKeepsOrigin(mint, n, front, id);
      RunKeeps(mint, n, front);
      RunTracks(mint, n, front, id);
      hide Step, Inv, OriginOk, LedgerOk, NextFate, Tracks;
      StepKeepsLedger(mint, Run(mint, n, front), last.0, last.1, id, OriginOf(mint, n, front, id),
                      FateOf(mint, n, front, id), RegistrationOf(mint, n, front, id));
    }
  }

  /** What a confirmation and a cancellation of a payment in each fate are answered. */
  function ConfirmAnswer(f: Fate): Outcome {
    match f
    case NotStored => Unknown
    case Open => Confirmed
    case ChargedAtOnce => AlreadyConfirmed
    case ConfirmedOn(_) => AlreadyConfirmed
    case Released => AlreadyCancelled
    case _ => NotSettleable
  }

  function CancelAnswer(f: Fate): Outcome {
    if f.Open? then CancelledNow else ConfirmAnswer(f)
  }

  lemma SettlingAnswer(mint: Mint, s: Store, id: string, o: Origin, f: Fate, date: string)
    requires LedgerOk(mint, s.payments, id, o, f)
    ensures Apply(s, Confirm(id, date)).1 == ConfirmAnswer(f) && Apply(s, Cancel(id)).1 == CancelAnswer(f)
  {
  }

  lemma ReadingAnswer(mint: Mint, s: Store, id: string, o: Origin, f: Fate)
    requires LedgerOk(mint, s.payments, id, o, f)
    ensures Apply(s, Get(id)) == (s, Found(if id in s.payments then Some(RecordOf(mint, o, f, id)) else None))
    ensures Apply(s, All) == (s, Snapshot(s.payments))
  {
    hide RecordOf;
  }

  /** The answer to every confirmation, cancellation and read at any point of any run, from that history. */
  lemma EveryAnswer(mint: Mint, n: nat, schedule: Schedule, id: string, date: string)
    requires IsInjective(mint)
    ensures var (store, f) := (Run(mint, n, schedule).store, FateOf(mint, n, schedule, id));
      Apply(store, Confirm(id, date)).1 == ConfirmAnswer(f) && Apply(store, Cancel(id)).1 == CancelAnswer(f)
    ensures var store := Run(mint, n, schedule).store;
      var (o, f) := (OriginOf(mint, n, schedule, id), FateOf(mint, n, schedule, id));
      if f.NotStored? then Apply(store, Get(id)).1 == Found(None)
      else o.Origin? && !o.req.OnPayment? && Apply(store, Get(id)).1 == Found(Some(RecordOf(mint, o, f, id)))
    ensures var store := Run(mint, n, schedule).store;
      var (o, f) := (OriginOf(mint, n, schedule, id), FateOf(mint, n, schedule, id));
      var listed := Apply(store, All).1;
      listed.Snapshot? && (id in listed.payments <==> !f.NotStored?)
      && (id in listed.payments ==> o.Origin? && !o.req.OnPayment? && listed.payments[id] == RecordOf(mint, o, f, id))
  {
    RunKeepsLedger(mint, n, schedule, id);
    var store, o, f := Run(mint, n, schedule).store, OriginOf(mint, n, schedule, id), FateOf(mint, n, schedule, id);
    SettlingAnswer(mint, store, id, o, f, date);
    ReadingAnswer(mint, store, id, o, f);
    hide Run, OriginOf, FateOf, Apply, RecordOf, ConfirmAnswer, CancelAnswer;
  }

  // ----- what its sink is told -----

  /** The announcements of a payment, oldest first. */
  function AnnouncedTo(log: seq<Event>, id: string): seq<Event> {
    if log == [] then []
    else
      var e := log[|log| - 1];
      AnnouncedTo(log[..|log| - 1], id)
      + if (e.kind == ReservedEvent || e.kind == PendingEvent) && e.paymentId == id then [e] else []
  }

  predicate Unannounced(a: Activation, id: string) {
    (a.Preparing? && a.id == id) || (a.Announcing? && a.event.paymentId == id)
  }

  /** The prepare handler of `id` is in flight and has not announced it yet. */
  predicate IsUnannounced(s: System, id: string) {
    exists i :: 0 <= i < |s.threads| && Unannounced(s.threads[i], id)
  }

  predicate AnnouncementsOk(s: System, id: string, o: Origin) {
    AnnouncedTo(s.log, id) ==
      if IsPrepared(o) && o.req.target.Some? && !IsUnannounced(s, id)
      then [Event(Announcement(o), id, o.req.target.value)] else []
  }

  lemma {:induction false} NobodyTold(log: seq<Event>, id: string)
    requires forall i :: 0 <= i < |log| ==> log[i].paymentId != id
    ensures AnnouncedTo(log, id) == []
  {
    if log != [] {
      NobodyTold(log[..|log| - 1], id);
    }
  }

  lemma ToldOneMore(log: seq<Event>, e: Event, id: string)
    ensures AnnouncedTo(log + [e], id)
         == AnnouncedTo(log, id)
            + if (e.kind == ReservedEvent || e.kind == PendingEvent) && e.paymentId == id then [e] else []
  {
    assert (log + [e])[..|log|] == log;
  }

  lemma UnannouncedAfter(s: System, s': System, t: nat, id: string)
    requires t < |s.threads| == |s'.threads| && s'.threads == s.threads[t := s'.threads[t]]
    requires !Unannounced(s.threads[t], id)
    ensures IsUnannounced(s', id) <==> IsUnannounced(s, id) || Unannounced(s'.threads[t], id)
  {
    hide Unannounced;
    if IsUnannounced(s, id) {
      var i :| 0 <= i < |s.threads| && Unannounced(s.threads[i], id);
      assert s'.threads[i] == s.threads[i];
    }
    assert Unannounced(s'.threads[t], id) ==> IsUnannounced(s', id);
  }

  lemma UnannouncedPrepares(a: Activation, id: string)
    ensures Unannounced(a, id) ==> Prepares(a) == Some(id)
  {
  }

  lemma NewlyUnannounced(mint: Mint, s: System, t: nat, req: Request, id: string)
    requires t < |s.threads| && s.threads[t] == Idle
    ensures Unannounced(Begin(mint, s, t, req).threads[t], id) <==> req.PreparePayment? && mint(s.counter) == id
  {
  }

  lemma BeginAnnounces(mint: Mint, s: System, t: nat, req: Request, id: string, o: Origin)
    requires Inv(mint, s) && IsInjective(mint) && t < |s.threads| && s.threads[t] == Idle
    requires AnnouncementsOk(s, id, o)
    ensures AnnouncementsOk(Begin(mint, s, t, req), id, NextOrigin(mint, s, t, req, id, o))
  {
    var s' := Begin(mint, s, t, req);
    BeginPursues(mint, s, t, req, id);
    UnannouncedAfter(s, s', t, id);
    NewlyUnannounced(mint, s, t, req, id);
    assert s'.log == s.log;
    if mint(s.counter) == id && !req.OnPayment? {
      MintIsFresh(mint, s, s.counter);
      assert SinksGiven(s);
      NobodyTold(s.log, id);
      hide Inv, Begin, Unannounced;
      if IsUnannounced(s, id) {
        var i :| 0 <= i < |s.threads| && Unannounced(s.threads[i], id);
        UnannouncedPrepares(s.threads[i], id);
        assert false;
      }
    }
    hide Inv, Begin, IsUnannounced, AnnouncedTo;
  }

  lemma CallAnnouncing(a: Activation, r: Outcome, id: string)
    requires NextCall(a).Some?
    ensures Unannounced(After(a, r), id) <==> a.Preparing? && a.id == id && a.given.Some?
  {
  }

  lemma CallAnnounces(mint: Mint, s: System, t: nat, req: Request, id: string, o: Origin)
    requires Inv(mint, s) && t < |s.threads| && NextCall(s.threads[t]).Some?
    requires Pursues(mint, s.threads[t], id, o) && AnnouncementsOk(s, id, o)
    ensures AnnouncementsOk(Step(mint, s, t, req), id, o)
  {
    var s', a := Step(mint, s, t, req), s.threads[t];
    CallStepShape(mint, s, t, req);
    assert s'.log == s.log;
    CallAnnouncing(a, Apply(s.store, NextCall(a).value).1, id);
    if Unannounced(a, id) {
      assert IsUnannounced(s, id);
      if Unannounced(s'.threads[t], id) {
        assert IsUnannounced(s', id);
      }
    } else {
      UnannouncedAfter(s, s', t, id);
    }
    hide Inv, Step, Apply, After, IsUnannounced, AnnouncedTo;
  }

  lemma DeliveryLeaves(mint: Mint, s: System, t: nat, req: Request, id: string)
    requires t < |s.threads| && (s.threads[t].Announcing? || s.threads[t].Emitting?)
    ensures var s' := Step(mint, s, t, req);
      |s'.threads| == |s.threads| && s'.threads == s.threads[t := s'.threads[t]] && !Unannounced(s'.threads[t], id)
      && s'.log == s.log + [s.threads[t].event]
  {
    DeliverShape(mint, s, t, req);
    hide Step;
  }

  lemma PursuedAnnouncement(mint: Mint, a: Activation, id: string, o: Origin)
    requires Pursues(mint, a, id, o) && a.Announcing? && a.event.paymentId == id
    ensures IsPrepared(o) && o.req.target == Some(a.event.target)
    ensures a.event == Event(Announcement(o), id, a.event.target)
  {
  }

  lemma AnnouncingAnnounces(mint: Mint, s: System, t: nat, req: Request, id: string, o: Origin)
    requires PreparersDistinct(s) && t < |s.threads| && Unannounced(s.threads[t], id) && s.threads[t].Announcing?
    requires Pursues(mint, s.threads[t], id, o) && AnnouncementsOk(s, id, o)
    ensures AnnouncementsOk(Step(mint, s, t, req), id, o)
  {
    var s', a := Step(mint, s, t, req), s.threads[t];
    assert IsUnannounced(s, id) && a.event.paymentId == id;
    DeliveryLeaves(mint, s, t, req, id);
    hide Step, IsUnannounced, AnnouncedTo, Pursues, Unannounced, PreparersDistinct;
    PursuedAnnouncement(mint, a, id, o);
    ToldOneMore(s.log, a.event, id);
    NobodyElseAnnounces(s, s', t, id);
  }

  lemma OtherDeliveryAnnounces(mint: Mint, s: System, t: nat, req: Request, id: string, o: Origin)
    requires t < |s.threads| && (s.threads[t].Announcing? || s.threads[t].Emitting?) && !Unannounced(s.threads[t], id)
    requires ThreadOk(mint, s, s.threads[t]) && AnnouncementsOk(s, id, o)
    ensures AnnouncementsOk(Step(mint, s, t, req), id, o)
  {
    var s', a := Step(mint, s, t, req), s.threads[t];
    assert a.Emitting? ==> IsTerminal(a.event.kind);
    assert a.Announcing? ==> a.event.paymentId != id;
    DeliveryLeaves(mint, s, t, req, id);
    hide Step, IsUnannounced, AnnouncedTo, ThreadOk, Unannounced;
    ToldOneMore(s.log, a.event, id);
    UnannouncedAfter(s, s', t, id);
  }

  lemma DeliverAnnounces(mint: Mint, s: System, t: nat, req: Request, id: string, o: Origin)
    requires Inv(mint, s) && t < |s.threads| && (s.threads[t].Announcing? || s.threads[t].Emitting?)
    requires Pursues(mint, s.threads[t], id, o) && AnnouncementsOk(s, id, o)
    ensures AnnouncementsOk(Step(mint, s, t, req), id, o)
  {
    assert ThreadsOk(mint, s) && ThreadOk(mint, s, s.threads[t]) && PreparersDistinct(s);
    hide Inv, ThreadsOk, ThreadOk, Step, AnnouncementsOk, Pursues, PreparersDistinct;
    if Unannounced(s.threads[t], id) {
      AnnouncingAnnounces(mint, s, t, req, id, o);
    } else {
      OtherDeliveryAnnounces(mint, s, t, req, id, o);
    }
  }

  lemma NobodyElseAnnounces(s: System, s': System, t: nat, id: string)
    requires PreparersDistinct(s) && t < |s.threads| && Unannounced(s.threads[t], id)
    requires |s'.threads| == |s.threads| && s'.threads == s.threads[t := s'.threads[t]]
    requires !Unannounced(s'.threads[t], id)
    ensures !IsUnannounced(s', id)
  {
    forall i | 0 <= i < |s'.threads| ensures !Unannounced(s'.threads[i], id) {
      UnannouncedPrepares(s.threads[t], id);
      UnannouncedPrepares(s.threads[i], id);
    }
  }

  /**
   In every run the announcements of a payment are these: one, to the sink its prepare request gave,
   saying that validation is pending if the number ends in 888 and that the payment is reserved if not,
   once its handler has come that far; and none for any other payment.
   */
  lemma {:induction false} RunAnnounces(mint: Mint, n: nat, schedule: Schedule, id: string)
    requires IsInjective(mint)
    ensures AnnouncementsOk(Run(mint, n, schedule), id, OriginOf(mint, n, schedule, id))
  {
    if schedule == [] {
      NobodyTold([], id);
    } else {
      var front, last := schedule[..|schedule| - 1], schedule[|schedule| - 1];
      var s, o := Run(mint, n, front), OriginOf(mint, n, front, id);
      RunAnnounces(mint, n, front, id);
      RunKeepsOrigin(mint, n, front, id);
      RunKeeps(mint, n, front);
      hide Inv, AnnouncementsOk, Pursues;
      if last.0 < |s.threads| {
        if s.threads[last.0] == Idle {
          BeginIsStep(mint, s, last.0, last.1);
          hide Step, Begin;
          BeginAnnounces(mint, s, last.0, last.1, id, o);
        } else if NextCall(s.threads[last.0]).Some? {
          hide Step;
          CallAnnounces(mint, s, last.0, last.1, id, o);
        } else {
          hide Step;
          DeliverAnnounces(mint, s, last.0, last.1, id, o);
        }
      }
    }
  }

  /** Once no handler is in flight: exactly one announcement of each prepared payment that gave a sink. */
  lemma QuietAnnouncements(mint: Mint, n: nat, schedule: Schedule, id: string)
    requires IsInjective(mint) && IsQuiet(Run(mint, n, schedule))
    ensures var (log, o) := (Run(mint, n, schedule).log, OriginOf(mint, n, schedule, id));
      AnnouncedTo(log, id) ==
        if !o.Origin? || !o.req.PreparePayment? || o.req.target.None? then []
        else if NeedsCode(o.req.phone) then [Event(PendingEvent, id, o.req.target.value)]
        else [Event(ReservedEvent, id, o.req.target.value)]
  {
    RunAnnounces(mint, n, schedule, id);
    hide Run, OriginOf, AnnouncedTo;
  }

  // ----- the terminal event -----

  predicate GivenOk(given: map<string, Target>, id: string, o: Origin) {
    (id in given <==> o.Origin? && !o.req.OnPayment? && o.req.target.Some?)
    && (id in given ==> Some(given[id]) == o.req.target)
  }

  lemma BeginGives(mint: Mint, s: System, t: nat, req: Request)
    requires t < |s.threads| && s.threads[t] == Idle
    ensures Begin(mint, s, t, req).given ==
      if req.OnPayment? then s.given else Record(s.given, mint(s.counter), req.target)
  {
  }

  lemma OthersKeepGiven(mint: Mint, s: System, t: nat, req: Request)
    requires t < |s.threads| ==> s.threads[t] != Idle
    ensures Step(mint, s, t, req).given == s.given
  {
    hide Begin, Apply, After;
  }

  lemma BeginKeepsGiven(mint: Mint, s: System, t: nat, req: Request, id: string, o: Origin)
    requires t < |s.threads| && s.threads[t] == Idle && GivenOk(s.given, id, o) && mint(s.counter) !in s.given
    ensures GivenOk(Begin(mint, s, t, req).given, id, NextOrigin(mint, s, t, req, id, o))
  {
    BeginGives(mint, s, t, req);
    hide Begin;
  }

  lemma StepKeepsGiven(mint: Mint, s: System, t: nat, req: Request, id: string, o: Origin)
    requires Inv(mint, s) && IsInjective(mint) && GivenOk(s.given, id, o)
    ensures GivenOk(Step(mint, s, t, req).given, id, NextOrigin(mint, s, t, req, id, o))
  {
    MintIsFresh(mint, s, s.counter);
    hide Inv, Step, Begin;
    if t < |s.threads| && s.threads[t] == Idle {
      BeginIsStep(mint, s, t, req);
      BeginKeepsGiven(mint, s, t, req, id, o);
    } else {
      OthersKeepGiven(mint, s, t, req);
    }
  }

  lemma {:induction false} RunKeepsGiven(mint: Mint, n: nat, schedule: Schedule, id: string)
    requires IsInjective(mint)
    ensures GivenOk(Run(mint, n, schedule).given, id, OriginOf(mint, n, schedule, id))
  {
    if schedule != [] {
      var front, last := schedule[..|schedule| - 1], schedule[|schedule| - 1];
      RunKeepsGiven(mint, n, front, id);
      RunKeeps(mint, n, front);
      hide Step, Inv, GivenOk;
      StepKeepsGiven(mint, Run(mint, n, front), last.0, last.1, id, OriginOf(mint, n, front, id));
    }
  }

  /** Which event tells which fate. */
  predicate TellsFate(k: Kind, f: Fate) {
    (k == CompletedEvent && (f.ChargedAtOnce? || f.ConfirmedOn?))
    || (k == CancelledEvent && f.Released?)
    || (k == DeniedEvent && f.Refused?)
  }

  /** Every event that is no announcement is the outcome of its payment, told to the sink its request gave. */
  lemma EventTellsFate(mint: Mint, n: nat, schedule: Schedule, i: nat)
    requires IsInjective(mint) && i < |Run(mint, n, schedule).log|
    ensures var e := Run(mint, n, schedule).log[i];
      var (o, f) := (OriginOf(mint, n, schedule, e.paymentId), FateOf(mint, n, schedule, e.paymentId));
      e.kind == ReservedEvent || e.kind == PendingEvent
      || (o.Origin? && !o.req.OnPayment? && o.req.target == Some(e.target) && TellsFate(e.kind, f))
  {
    var s := Run(mint, n, schedule);
    var e := s.log[i];
    var o, f := OriginOf(mint, n, schedule, e.paymentId), FateOf(mint, n, schedule, e.paymentId);
    TerminalEventsAgree(mint, n, schedule, i);
    RunKeepsLedger(mint, n, schedule, e.paymentId);
    RunKeepsGiven(mint, n, schedule, e.paymentId);
    hide Run, OriginOf, FateOf, TerminalEvents;
    if e.kind != ReservedEvent && e.kind != PendingEvent {
      StatusTellsFate(mint, s.store.payments, e.paymentId, o, f, e.kind);
    }
  }

  lemma StatusTellsFate(mint: Mint, payments: map<string, Payment>, id: string, o: Origin, f: Fate, k: Kind)
    requires LedgerOk(mint, payments, id, o, f) && id in payments && IsTerminal(k) && payments[id].status == StatusOf(k)
    ensures TellsFate(k, f)
  {
  }
}
