/**
 What every validation call answers, as a function of the calls before it. Nothing is assumed about
 the calls in between: confirmations, cancellations, reads and other payments' calls may be mixed in.
 */
module Otp {
  import opened PaymentStore

  /** The codes presented for `id` with the right authorization id, oldest first. */
  function Attempts(history: seq<Call>, id: string, authorizationId: string): seq<string> {
    if history == [] then []
    else
      var earlier := Attempts(history[..|history| - 1], id, authorizationId);
      var c := history[|history| - 1];
      if c.Validate? && c.id == id && c.authorizationId == authorizationId then earlier + [c.code] else earlier
  }

  function ApplyAll(s: Store, history: seq<Call>): Store {
    if history == [] then s
    else Apply(ApplyAll(s, history[..|history| - 1]), history[|history| - 1]).0
  }

  /** The budget is spent, or one of the presented codes was right. */
  predicate IsOver(v: Validation, attempts: seq<string>) {
    |attempts| >= v.attemptsLeft || v.code in attempts
  }

  /** The answer to a call after `attempts` codes were tried. */
  function Answer(v: Validation, attempts: seq<string>, authorizationId: string, code: string): Outcome {
    if IsOver(v, attempts) then NotPending
    else if authorizationId != v.authorizationId then InvalidAuthId
    else if code == v.code then Validated
    else if |attempts| + 1 == v.attemptsLeft then ValidationFailed
    else InvalidCode
  }

  /** No call of the history registers the id again. */
  predicate LeavesRegistered(history: seq<Call>, id: string) {
    forall c :: c in history ==> !((c.Insert? || c.InsertPending?) && c.id == id)
  }

  /** The stores hold what is left of the validation after `attempts`. */
  predicate Reflects(t: Store, v: Validation, id: string, attempts: seq<string>) {
    id in t.payments
    && (id in t.pending <==> !IsOver(v, attempts))
    && (id in t.pending ==> t.pending[id] == v.(attemptsLeft := v.attemptsLeft - |attempts|))
  }

  lemma CallReflects(t: Store, v: Validation, id: string, attempts: seq<string>, c: Call)
    requires Reflects(t, v, id, attempts) && !((c.Insert? || c.InsertPending?) && c.id == id)
    ensures Reflects(Apply(t, c).0, v, id,
      if c.Validate? && c.id == id && c.authorizationId == v.authorizationId then attempts + [c.code] else attempts)
  {
    if c.Validate? && c.id == id {
      hide Apply;
      assert Apply(t, c) == ApplyValidate(t, id, c.authorizationId, c.code) by {
        ValidateApplies(t, c);
      }
    }
  }

  lemma ValidateApplies(t: Store, c: Call)
    requires c.Validate?
    ensures Apply(t, c) == ApplyValidate(t, c.id, c.authorizationId, c.code)
  {
  }

  lemma {:induction false} PendingIsFunctionOfAttempts(s: Store, v: Validation, history: seq<Call>, id: string)
    requires id in s.payments && id in s.pending && s.pending[id] == v && v.attemptsLeft >= 1
    requires LeavesRegistered(history, id)
    ensures Reflects(ApplyAll(s, history), v, id, Attempts(history, id, v.authorizationId))
  {
    if history != [] {
      var prefix, last := history[..|history| - 1], history[|history| - 1];
      assert last in history && forall c :: c in prefix ==> c in history;
      PendingIsFunctionOfAttempts(s, v, prefix, id);
      CallReflects(ApplyAll(s, prefix), v, id, Attempts(prefix, id, v.authorizationId), last);
      hide Apply;
    }
  }

  /**
   Every validation call, at any point of any history: a wrong authorization id costs nothing; of the
   other calls the first right code within the budget validates, and otherwise the last one of the
   budget denies; every call after that finds nothing pending.
   */
  lemma EveryAnswer(s: Store, v: Validation, history: seq<Call>, id: string, authorizationId: string, code: string)
    requires id in s.payments && id in s.pending && s.pending[id] == v && v.attemptsLeft >= 1
    requires LeavesRegistered(history, id)
    ensures Apply(ApplyAll(s, history), Validate(id, authorizationId, code)).1
         == Answer(v, Attempts(history, id, v.authorizationId), authorizationId, code)
  {
    PendingIsFunctionOfAttempts(s, v, history, id);
  }
}
