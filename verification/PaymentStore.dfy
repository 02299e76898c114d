/**
 The Carrier Billing stores: payments, pending OTP validations and notify targets. `Apply` is each
 store operation as one atomic step; the class performs it on the three maps in place.
 */
module PaymentStore {
  import opened Wrappers

  datatype Status = PendingValidation | Reserved | Succeeded | Cancelled | Denied

  /** `authorizationId` is the one inside the payment's `validationInfo`. */
  datatype Payment = Payment(
    paymentId: string, amountTransaction: string, status: Status, creationDate: string,
    paymentDate: Option<string>, authorizationId: Option<string>)

  datatype Validation = Validation(authorizationId: string, code: string, attemptsLeft: nat)

  datatype Target = Target(sink: string, auth: Option<string>)

  datatype Store = Store(
    payments: map<string, Payment>, pending: map<string, Validation>, notify: map<string, Target>)

  const EMPTY: Store := Store(map[], map[], map[])

  datatype Call =
    | Insert(id: string, payment: Payment)
    | Get(id: string)
    | All
    | Confirm(id: string, paymentDate: string)
    | Cancel(id: string)
    | InsertPending(id: string, validation: Validation)
    | Validate(id: string, authorizationId: string, code: string)
    | InsertNotify(id: string, target: Target)
    | TakeNotify(id: string)

  datatype Outcome =
    | Done
    | Found(payment: Option<Payment>)
    | Snapshot(payments: map<string, Payment>)
    | Confirmed | CancelledNow | AlreadyConfirmed | AlreadyCancelled | NotSettleable
    | Validated | InvalidAuthId | InvalidCode | ValidationFailed | NotPending
    | Unknown
    | Taken(target: Option<Target>)

  // ----- the operations, each as one atomic step -----

  function ConfirmOutcome(p: Payment): Outcome {
    match p.status
    case Reserved => Confirmed
    case Succeeded => AlreadyConfirmed
    case Cancelled => AlreadyCancelled
    case _ => NotSettleable
  }

  function CancelOutcome(p: Payment): Outcome {
    match p.status
    case Reserved => CancelledNow
    case Cancelled => AlreadyCancelled
    case Succeeded => AlreadyConfirmed
    case _ => NotSettleable
  }

  /** What a presented authorization id and code do to a pending validation. */
  datatype Verdict = Reject | Consume(left: nat) | Settle(status: Status)

  function Judge(v: Validation, authorizationId: string, code: string): Verdict {
    var left := if v.attemptsLeft == 0 then 0 else v.attemptsLeft - 1;
    if v.authorizationId != authorizationId then Reject
    else if v.code == code then Settle(Reserved)
    else if left == 0 then Settle(Denied)
    else Consume(left)
  }

  function SettlePayment(payments: map<string, Payment>, id: string, status: Status): map<string, Payment> {
    if id in payments then payments[id := payments[id].(status := status, authorizationId := None)] else payments
  }

  function SettledOutcome(status: Status): Outcome {
    if status == Reserved then Validated else ValidationFailed
  }

  function ApplyValidate(s: Store, id: string, authorizationId: string, code: string): (Store, Outcome) {
    if id !in s.pending then (s, if id in s.payments then NotPending else Unknown)
    else
      match Judge(s.pending[id], authorizationId, code)
      case Reject => (s, InvalidAuthId)
      case Consume(left) => (s.(pending := s.pending[id := s.pending[id].(attemptsLeft := left)]), InvalidCode)
      case Settle(status) =>
        (s.(pending := s.pending - {id}, payments := SettlePayment(s.payments, id, status)), SettledOutcome(status))
  }

  function Apply(s: Store, c: Call): (Store, Outcome) {
    match c
    case Insert(id, payment) => (s.(payments := s.payments[id := payment]), Done)
    case Get(id) => (s, Found(if id in s.payments then Some(s.payments[id]) else None))
    case All => (s, Snapshot(s.payments))
    case Confirm(id, date) =>
      if id !in s.payments then (s, Unknown)
      else if ConfirmOutcome(s.payments[id]).Confirmed? then
        (s.(payments := s.payments[id := s.payments[id].(status := Succeeded, paymentDate := Some(date))]), Confirmed)
      else (s, ConfirmOutcome(s.payments[id]))
    case Cancel(id) =>
      if id !in s.payments then (s, Unknown)
      else if CancelOutcome(s.payments[id]).CancelledNow? then
        (s.(payments := s.payments[id := s.payments[id].(status := Cancelled)]), CancelledNow)
      else (s, CancelOutcome(s.payments[id]))
    case InsertPending(id, v) => (s.(pending := s.pending[id := v]), Done)
    case Validate(id, authorizationId, code) => ApplyValidate(s, id, authorizationId, code)
    case InsertNotify(id, target) => (s.(notify := s.notify[id := target]), Done)
    case TakeNotify(id) =>
      if id in s.notify then (s.(notify := s.notify - {id}), Taken(Some(s.notify[id]))) else (s, Taken(None))
  }

  // ----- the stores in place -----

  class PaymentStores {
    var payments: map<string, Payment>
    var pending: map<string, Validation>
    var notify: map<string, Target>

    constructor ()
      ensures Contents() == EMPTY
    {
      payments, pending, notify := map[], map[], map[];
    }

    function Contents(): Store
      reads this
    {
      Store(payments, pending, notify)
    }

    method InsertPayment(id: string, payment: Payment)
      modifies this`payments
      ensures payments == old(payments)[id := payment]
      ensures Contents() == Apply(old(Contents()), Insert(id, payment)).0
    {
      payments := payments[id := payment];
    }

    method ConfirmPayment(id: string, paymentDate: string) returns (outcome: Outcome)
      modifies this
      ensures (Contents(), outcome) == Apply(old(Contents()), Confirm(id, paymentDate))
    {
      if id !in payments {
        return Unknown;
      }
      var payment := payments[id];
      match payment.status {
        case Reserved =>
          payment := payment.(status := Succeeded);
          payment := payment.(paymentDate := Some(paymentDate));
          payments := payments[id := payment];
          outcome := Confirmed;
        case Succeeded => outcome := AlreadyConfirmed;
        case Cancelled => outcome := AlreadyCancelled;
        case _ => outcome := NotSettleable;
      }
    }

    method CancelPayment(id: string) returns (outcome: Outcome)
      modifies this
      ensures (Contents(), outcome) == Apply(old(Contents()), Cancel(id))
    {
      if id !in payments {
        return Unknown;
      }
      var payment := payments[id];
      match payment.status {
        case Reserved =>
          payments := payments[id := payment.(status := Cancelled)];
          outcome := CancelledNow;
        case Cancelled => outcome := AlreadyCancelled;
        case Succeeded => outcome := AlreadyConfirmed;
        case _ => outcome := NotSettleable;
      }
    }

    method InsertPendingValidation(id: string, validation: Validation)
      modifies this`pending
      ensures pending == old(pending)[id := validation]
      ensures Contents() == Apply(old(Contents()), InsertPending(id, validation)).0
    {
      pending := pending[id := validation];
    }

    /** Settle a payment whose validation is over; nothing happens if it is gone. */
    method SettleTo(id: string, status: Status)
      modifies this`payments
      ensures payments == SettlePayment(old(payments), id, status)
    {
      if id in payments {
        var payment := payments[id].(status := status);
        payments := payments[id := payment.(authorizationId := None)];
      }
    }

    /** The entry is edited, then removed, then the payment settled, as the two nested locks allow. */
    method ValidatePending(id: string, authorizationId: string, code: string) returns (outcome: Outcome)
      modifies this
      ensures (Contents(), outcome) == Apply(old(Contents()), Validate(id, authorizationId, code))
    {
      if id !in pending {
        return if id in payments then NotPending else Unknown;
      }
      var validation := pending[id];
      if validation.authorizationId != authorizationId {
        return InvalidAuthId;
      }
      if validation.code == code {
        pending := pending - {id};
        SettleTo(id, Reserved);
        return Validated;
      }
      var left := if validation.attemptsLeft == 0 then 0 else validation.attemptsLeft - 1;
      pending := pending[id := validation.(attemptsLeft := left)];
      if left == 0 {
        pending := pending - {id};
        SettleTo(id, Denied);
        assert pending == old(pending) - {id};
        return ValidationFailed;
      }
      return InvalidCode;
    }

    method InsertNotifyTarget(id: string, target: Target)
      modifies this`notify
      ensures notify == old(notify)[id := target]
      ensures Contents() == Apply(old(Contents()), InsertNotify(id, target)).0
    {
      notify := notify[id := target];
    }

    method TakeNotifyTarget(id: string) returns (target: Option<Target>)
      modifies this`notify
      ensures (Contents(), Taken(target)) == Apply(old(Contents()), TakeNotify(id))
    {
      if id in notify {
        target := Some(notify[id]);
        notify := notify - {id};
      } else {
        target := None;
      }
    }
  }
}
