/** What the payment handlers guarantee over every interleaved run. */
module PaymentGuarantees {
  import opened PaymentHandlers
  import opened PaymentInvariant
  import opened PaymentList
  import opened PaymentStore
  import opened Wrappers

  type Schedule = seq<(nat, Request)>

  // ----- the stores agree -----

  /** Once no handler is in flight, three ways of saying that a payment awaits its code coincide. */
  lemma StoresAgreeWhenQuiet(mint: Mint, n: nat, schedule: Schedule, id: string)
    requires IsInjective(mint) && IsQuiet(Run(mint, n, schedule))
    ensures var store := Run(mint, n, schedule).store;
      (id in store.pending <==> id in store.payments && store.payments[id].status == PendingValidation)
      && (id in store.pending <==> id in store.payments && store.payments[id].authorizationId.Some?)
      && (id in store.pending ==>
            store.payments[id].authorizationId == Some(store.pending[id].authorizationId)
            && 1 <= store.pending[id].attemptsLeft <= 3)
      && (id in store.payments ==> (store.payments[id].paymentDate.Some? <==> store.payments[id].status == Succeeded))
  {
    RunKeeps(mint, n, schedule);
    var s := Run(mint, n, schedule);
    hide Run, ThreadsOk, SinksConserved, SinksGiven, IsIssued;
    if id in s.store.payments && s.store.payments[id].status == PendingValidation {
      assert id in s.store.pending || IsOwed(s, id);
    }
  }

  /** While handlers are in flight the inclusions still hold at every instant. */
  lemma PendingInsideAwaiting(mint: Mint, n: nat, schedule: Schedule, id: string)
    requires IsInjective(mint)
    ensures var store := Run(mint, n, schedule).store;
      id in store.pending ==>
        id in store.payments && store.payments[id].status == PendingValidation
        && store.payments[id].authorizationId == Some(store.pending[id].authorizationId)
        && 1 <= store.pending[id].attemptsLeft <= 3
  {
    RunKeeps(mint, n, schedule);
    hide Run, ThreadsOk, SinksConserved, SinksGiven, IsIssued;
  }

  /** A listing's snapshot of the store has distinct payment ids, so its pages partition the store. */
  lemma SnapshotHasDistinctIds(mint: Mint, n: nat, schedule: Schedule, keys: seq<string>)
    requires IsInjective(mint)
    requires forall k :: k in keys ==> k in Run(mint, n, schedule).store.payments
    requires forall i, j :: 0 <= i < j < |keys| ==> keys[i] != keys[j]
    ensures DistinctIds(seq(|keys|, i requires 0 <= i < |keys| => Run(mint, n, schedule).store.payments[keys[i]]))
  {
    RunKeeps(mint, n, schedule);
    hide Run, ThreadsOk, SinksConserved, SinksGiven, IsIssued;
  }

  // ----- a payment's history -----

  /** The statuses a payment can still reach. */
  predicate CanBecome(a: Status, b: Status) {
    a == b || IsEdge(a, b) || (a == PendingValidation && (b == Succeeded || b == Cancelled))
  }

  lemma StepMovesOn(mint: Mint, s: System, t: nat, req: Request)
    requires Inv(mint, s)
    ensures PaymentsMoveOn(s.store, Step(mint, s, t, req).store)
  {
    if t < |s.threads| && NextCall(s.threads[t]).Some? {
      assert ThreadOk(mint, s, s.threads[t]);
      CallMovesOn(mint, s, s.threads[t]);
    }
  }

  /** Every single step leaves a payment as it was or moves its status along one edge. */
  lemma EveryStepIsAnEdge(mint: Mint, n: nat, schedule: Schedule, t: nat, req: Request, id: string)
    requires IsInjective(mint) && id in Run(mint, n, schedule).store.payments
    ensures var before, after := Run(mint, n, schedule).store, Run(mint, n, schedule + [(t, req)]).store;
      id in after.payments
      && (after.payments[id] == before.payments[id]
          || IsEdge(before.payments[id].status, after.payments[id].status))
  {
    RunKeeps(mint, n, schedule);
    StepMovesOn(mint, Run(mint, n, schedule), t, req);
    assert (schedule + [(t, req)])[..|schedule|] == schedule;
  }

  /** Over any run the status follows the edges; a settled payment never changes again. */
  lemma {:induction false} HistoryFollowsEdges(mint: Mint, n: nat, schedule: Schedule, more: Schedule, id: string)
    requires IsInjective(mint) && id in Run(mint, n, schedule).store.payments
    ensures var before, after := Run(mint, n, schedule).store, Run(mint, n, schedule + more).store;
      id in after.payments && CanBecome(before.payments[id].status, after.payments[id].status)
      && (IsSettled(before.payments[id].status) ==> after.payments[id] == before.payments[id])
  {
    hide Run;
    if more == [] {
      assert schedule + more == schedule;
    } else {
      var front, last := more[..|more| - 1], more[|more| - 1];
      HistoryFollowsEdges(mint, n, schedule, front, id);
      EveryStepIsAnEdge(mint, n, schedule + front, last.0, last.1, id);
      assert schedule + more == schedule + front + [last];
    }
  }

  /** Of all confirm and cancel calls ever made on a payment, at most one succeeds. */
  lemma AtMostOneWin(mint: Mint, n: nat, schedule: Schedule, id: string)
    requires IsInjective(mint)
    ensures Run(mint, n, schedule).wins[id] <= 1
  {
    RunKeeps(mint, n, schedule);
    hide Run, ThreadsOk, SinksConserved, SinksGiven, IsIssued;
  }

  // ----- terminal events -----

  /** At most one terminal event a payment, naming the status it settled in, to the sink it gave. */
  lemma TerminalEventsAgree(mint: Mint, n: nat, schedule: Schedule, i: nat)
    requires IsInjective(mint)
    ensures var s := Run(mint, n, schedule);
      i < |s.log| && IsTerminal(s.log[i].kind) ==>
        var id := s.log[i].paymentId;
        TerminalEvents(s.log, id) == 1
        && id in s.store.payments && s.store.payments[id].status == StatusOf(s.log[i].kind)
        && id in s.given && s.log[i].target == s.given[id]
  {
    RunKeeps(mint, n, schedule);
    var s := Run(mint, n, schedule);
    hide Run, ThreadsOk, IsIssued;
    if i < |s.log| && IsTerminal(s.log[i].kind) {
      assert SinkConserved(s, s.log[i].paymentId);
      CountsEvent(s.log, i);
    }
  }

  lemma {:induction false} CountsEvent(log: seq<Event>, i: nat)
    requires i < |log| && IsTerminal(log[i].kind)
    ensures TerminalEvents(log, log[i].paymentId) >= 1
  {
    if i < |log| - 1 {
      CountsEvent(log[..|log| - 1], i);
    }
  }

  lemma {:induction false} CountedEvent(log: seq<Event>, id: string) returns (i: nat)
    requires TerminalEvents(log, id) >= 1
    ensures i < |log| && IsTerminal(log[i].kind) && log[i].paymentId == id
  {
    var last := log[|log| - 1];
    if IsTerminal(last.kind) && last.paymentId == id {
      i := |log| - 1;
    } else {
      i := CountedEvent(log[..|log| - 1], id);
    }
  }

  /**
   When no handler is in flight, a payment that gave a sink has had its terminal event, or the sink
   still sits in the notify map, never both and never neither; an open payment's sink is in the map.
   */
  lemma SinkSpentOrKept(mint: Mint, n: nat, schedule: Schedule, id: string)
    requires IsInjective(mint) && IsQuiet(Run(mint, n, schedule)) && id in Run(mint, n, schedule).given
    ensures var s := Run(mint, n, schedule);
      (TerminalEvents(s.log, id) == if id in s.store.notify then 0 else 1)
      && (id in s.store.payments && !IsSettled(s.store.payments[id].status) ==> id in s.store.notify)
  {
    RunKeeps(mint, n, schedule);
    var s := Run(mint, n, schedule);
    hide Run, ThreadsOk, IsIssued;
    assert SinkConserved(s, id);
    if TerminalEvents(s.log, id) == 1 {
      var i := CountedEvent(s.log, id);
    }
  }
}
