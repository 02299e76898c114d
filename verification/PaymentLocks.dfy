/**
 The payment handlers at the granularity of their locks. Each store call takes its lock, works and
 releases in separate steps, and validating nests the payments lock inside the pending one. Every
 such run refines a run in which each store call is one atomic step.
 */
module PaymentLocks {
  import opened PaymentDelivery
  import opened PaymentHandlers
  import opened PaymentGuarantees
  import opened PaymentStore
  import opened Wrappers

  datatype Lock = PaymentsLock | PendingLock | NotifyLock

  function FirstLock(c: Call): Lock {
    match c
    case InsertPending(_, _) => PendingLock
    case Validate(_, _, _) => PendingLock
    case InsertNotify(_, _) => NotifyLock
    case TakeNotify(_) => NotifyLock
    case _ => PaymentsLock
  }

  /** What a validation still has to do once it holds the payments lock too. */
  datatype Plan = Look | SettleAs(status: Status, removed: Validation)

  datatype Phase =
    | Outside
    | HoldFirst
    | WantPayments(plan: Plan)
    | HoldBoth(plan: Plan)
    | LeaveBoth(outcome: Outcome)
    | LeaveFirst(outcome: Outcome)

  datatype LockSystem = LockSystem(sys: System, phases: seq<Phase>, owner: map<Lock, nat>)

  predicate IsThread(l: LockSystem, t: nat) {
    t < |l.sys.threads| == |l.phases|
  }

  function WithPhase(l: LockSystem, t: nat, phase: Phase): LockSystem
    requires IsThread(l, t)
  {
    l.(phases := l.phases[t := phase])
  }

  /** The work done with the first lock held. */
  function WorkFirst(l: LockSystem, t: nat, c: Call): LockSystem
    requires IsThread(l, t)
  {
    var store := l.sys.store;
    if c.Validate? then
      if c.id !in store.pending then WithPhase(l, t, WantPayments(Look))
      else
        var v := store.pending[c.id];
        match Judge(v, c.authorizationId, c.code)
        case Reject => WithPhase(l, t, LeaveFirst(InvalidAuthId))
        case Consume(left) =>
          var edited := store.(pending := store.pending[c.id := v.(attemptsLeft := left)]);
          WithPhase(l.(sys := l.sys.(store := edited)), t, LeaveFirst(InvalidCode))
        case Settle(status) =>
          var edited := store.(pending := store.pending - {c.id});
          WithPhase(l.(sys := l.sys.(store := edited)), t, WantPayments(SettleAs(status, v)))
    else
      var (after, r) := Apply(store, c);
      var wins := if r.Confirmed? || r.CancelledNow? then l.sys.wins + multiset{c.id} else l.sys.wins;
      WithPhase(l.(sys := l.sys.(store := after, wins := wins)), t, LeaveFirst(r))
  }

  /** The work a validation does with both locks held. */
  function WorkBoth(l: LockSystem, t: nat, c: Call, plan: Plan): LockSystem
    requires IsThread(l, t) && c.Validate?
  {
    var payments := l.sys.store.payments;
    match plan
    case Look => WithPhase(l, t, LeaveBoth(if c.id in payments then NotPending else Unknown))
    case SettleAs(status, _) =>
      var edited := l.sys.store.(payments := SettlePayment(payments, c.id, status));
      WithPhase(l.(sys := l.sys.(store := edited)), t, LeaveBoth(SettledOutcome(status)))
  }

  /** The next step of store call `c`, or no step if the lock it needs is held. */
  function CallStep(l: LockSystem, t: nat, c: Call): LockSystem
    requires IsThread(l, t)
  {
    match l.phases[t]
    case Outside =>
      if FirstLock(c) in l.owner then l
      else WithPhase(l.(owner := l.owner[FirstLock(c) := t]), t, HoldFirst)
    case HoldFirst => WorkFirst(l, t, c)
    case WantPayments(plan) =>
      if PaymentsLock in l.owner then l
      else WithPhase(l.(owner := l.owner[PaymentsLock := t]), t, HoldBoth(plan))
    case HoldBoth(plan) => if c.Validate? then WorkBoth(l, t, c, plan) else l
    case LeaveBoth(r) => WithPhase(l.(owner := l.owner - {PaymentsLock}), t, LeaveFirst(r))
    case LeaveFirst(r) =>
      var threads := l.sys.threads[t := After(l.sys.threads[t], r)];
      WithPhase(l.(owner := l.owner - {FirstLock(c)}, sys := l.sys.(threads := threads)), t, Outside)
  }

  /** Thread `t` takes its next step: one of its store call, or one that needs no lock. */
  function LockStep(mint: Mint, l: LockSystem, t: nat, req: Request): LockSystem {
    if !IsThread(l, t) then l
    else if NextCall(l.sys.threads[t]).None? then l.(sys := Step(mint, l.sys, t, req))
    else CallStep(l, t, NextCall(l.sys.threads[t]).value)
  }

  function LockInit(n: nat): LockSystem {
    LockSystem(Init(n), seq(n, _ => Outside), map[])
  }

  function LockRun(mint: Mint, n: nat, schedule: Schedule): LockSystem {
    if schedule == [] then LockInit(n)
    else
      var last := schedule[|schedule| - 1];
      LockStep(mint, LockRun(mint, n, schedule[..|schedule| - 1]), last.0, last.1)
  }

  // ----- what the locks protect -----

  predicate Holds(a: Activation, phase: Phase, k: Lock) {
    NextCall(a).Some? && !phase.Outside?
    && (k == FirstLock(NextCall(a).value) || (k == PaymentsLock && (phase.HoldBoth? || phase.LeaveBoth?)))
  }

  function PlanOf(phase: Phase): Option<Plan> {
    match phase
    case WantPayments(plan) => Some(plan)
    case HoldBoth(plan) => Some(plan)
    case _ => None
  }

  predicate PlanOk(pending: map<string, Validation>, c: Call, plan: Plan) {
    c.Validate? && c.id !in pending
    && (plan.SettleAs? ==> Judge(plan.removed, c.authorizationId, c.code) == Settle(plan.status))
  }

  predicate PhaseOk(pending: map<string, Validation>, a: Activation, phase: Phase) {
    (!phase.Outside? ==> NextCall(a).Some?)
    && (PlanOf(phase).Some? || phase.LeaveBoth? ==> NextCall(a).value.Validate?)
    && (PlanOf(phase).Some? ==> PlanOk(pending, NextCall(a).value, PlanOf(phase).value))
  }

  ghost predicate OwnersOk(l: LockSystem) {
    (forall k :: k in l.owner ==>
      IsThread(l, l.owner[k]) && Holds(l.sys.threads[l.owner[k]], l.phases[l.owner[k]], k))
    && (forall t, k :: 0 <= t && IsThread(l, t) && Holds(l.sys.threads[t], l.phases[t], k) ==>
          k in l.owner && l.owner[k] == t)
  }

  ghost predicate LockInv(l: LockSystem) {
    |l.phases| == |l.sys.threads|
    && (forall t :: 0 <= t < |l.phases| ==> PhaseOk(l.sys.store.pending, l.sys.threads[t], l.phases[t]))
    && OwnersOk(l)
  }

  lemma LockInitOk(n: nat)
    ensures LockInv(LockInit(n))
  {
  }

  lemma HolderIsOwner(l: LockSystem, t: nat, k: Lock)
    requires OwnersOk(l) && IsThread(l, t) && Holds(l.sys.threads[t], l.phases[t], k)
    ensures k in l.owner && l.owner[k] == t
  {
  }

  // ----- what a step touches -----

  lemma WorkFirstShape(l: LockSystem, t: nat, c: Call)
    requires IsThread(l, t)
    ensures var l' := WorkFirst(l, t, c);
      IsThread(l', t) && l'.owner == l.owner && l'.sys.threads == l.sys.threads
      && l'.phases == l.phases[t := l'.phases[t]]
      && (l'.phases[t].LeaveFirst?
          || (l'.phases[t].WantPayments? && PlanOk(l'.sys.store.pending, c, l'.phases[t].plan)))
      && (FirstLock(c) != PendingLock ==> l'.sys.store.pending == l.sys.store.pending)
  {
  }

  lemma WorkBothShape(l: LockSystem, t: nat, c: Call, plan: Plan)
    requires IsThread(l, t) && c.Validate?
    ensures var l' := WorkBoth(l, t, c, plan);
      IsThread(l', t) && l'.owner == l.owner && l'.sys.threads == l.sys.threads
      && l'.phases == l.phases[t := l'.phases[t]]
      && l'.phases[t].LeaveBoth? && l'.sys.store.pending == l.sys.store.pending
  {
    hide SettlePayment;
  }

  lemma LocalShape(mint: Mint, l: LockSystem, t: nat, req: Request)
    requires IsThread(l, t) && NextCall(l.sys.threads[t]).None?
    ensures var l' := LockStep(mint, l, t, req);
      IsThread(l', t) && l'.owner == l.owner && l'.phases == l.phases && l'.sys == Step(mint, l.sys, t, req)
      && l'.sys.threads == l.sys.threads[t := l'.sys.threads[t]] && l'.sys.store == l.sys.store
  {
  }

  /** What each phase of a store call makes of its own phase, its thread, the locks and the pending map. */
  lemma CallShape(l: LockSystem, t: nat, c: Call)
    requires IsThread(l, t)
    ensures var l' := CallStep(l, t, c);
      IsThread(l', t) && |l'.phases| == |l.phases|
      && l'.phases == l.phases[t := l'.phases[t]] && l'.sys.threads == l.sys.threads[t := l'.sys.threads[t]]
      && ((l.phases[t].HoldFirst? && FirstLock(c) == PendingLock) || l'.sys.store.pending == l.sys.store.pending)
  {
    hide WorkFirst, WorkBoth, After, PlanOk;
    WorkFirstShape(l, t, c);
    if c.Validate? && l.phases[t].HoldBoth? {
      WorkBothShape(l, t, c, l.phases[t].plan);
    }
  }

  lemma LockStepShape(mint: Mint, l: LockSystem, t: nat, req: Request)
    requires IsThread(l, t)
    ensures var l' := LockStep(mint, l, t, req);
      IsThread(l', t) && |l'.phases| == |l.phases|
      && l'.phases == l.phases[t := l'.phases[t]] && l'.sys.threads == l.sys.threads[t := l'.sys.threads[t]]
  {
    hide Step, CallStep, NextCall;
    if NextCall(l.sys.threads[t]).None? {
      LocalShape(mint, l, t, req);
    } else {
      CallShape(l, t, NextCall(l.sys.threads[t]).value);
    }
  }

  /** A thread that does not hold the pending lock leaves the pending map alone. */
  lemma PendingIsProtected(mint: Mint, l: LockSystem, t: nat, req: Request)
    requires LockInv(l) && IsThread(l, t)
    ensures LockStep(mint, l, t, req).sys.store.pending == l.sys.store.pending
      || Holds(l.sys.threads[t], l.phases[t], PendingLock)
  {
    hide Step, CallStep, NextCall, FirstLock, LockInv;
    if NextCall(l.sys.threads[t]).None? {
      LocalShape(mint, l, t, req);
    } else {
      CallShape(l, t, NextCall(l.sys.threads[t]).value);
    }
  }

  lemma CallPhaseStaysOk(l: LockSystem, t: nat)
    requires IsThread(l, t) && NextCall(l.sys.threads[t]).Some?
    requires PhaseOk(l.sys.store.pending, l.sys.threads[t], l.phases[t])
    ensures var l' := CallStep(l, t, NextCall(l.sys.threads[t]).value);
      IsThread(l', t) && PhaseOk(l'.sys.store.pending, l'.sys.threads[t], l'.phases[t])
  {
    var c := NextCall(l.sys.threads[t]).value;
    hide WorkFirst, WorkBoth, After, NextCall, PlanOk;
    WorkFirstShape(l, t, c);
    assert forall pending, plan :: PlanOk(pending, c, plan) ==> c.Validate? by {
      PlansValidate(c);
    }
    if l.phases[t].HoldBoth? {
      WorkBothShape(l, t, c, l.phases[t].plan);
    }
  }

  lemma PlansValidate(c: Call)
    ensures forall pending, plan :: PlanOk(pending, c, plan) ==> c.Validate?
  {
  }

  lemma PhaseStaysOk(mint: Mint, l: LockSystem, t: nat, req: Request)
    requires LockInv(l) && IsThread(l, t)
    ensures var l' := LockStep(mint, l, t, req);
      IsThread(l', t) && PhaseOk(l'.sys.store.pending, l'.sys.threads[t], l'.phases[t])
  {
    assert PhaseOk(l.sys.store.pending, l.sys.threads[t], l.phases[t]);
    hide LockInv, CallStep, NextCall, Step;
    if NextCall(l.sys.threads[t]).None? {
      LocalShape(mint, l, t, req);
    } else {
      CallPhaseStaysOk(l, t);
    }
  }

  lemma PhasesStayOk(mint: Mint, l: LockSystem, t: nat, req: Request)
    requires LockInv(l) && IsThread(l, t)
    ensures var l' := LockStep(mint, l, t, req);
      forall u :: 0 <= u < |l'.phases| && u < |l'.sys.threads| ==>
        PhaseOk(l'.sys.store.pending, l'.sys.threads[u], l'.phases[u])
  {
    var l' := LockStep(mint, l, t, req);
    PendingIsProtected(mint, l, t, req);
    PhaseStaysOk(mint, l, t, req);
    LockStepShape(mint, l, t, req);
    hide LockStep;
    forall u | 0 <= u < |l'.phases| ensures PhaseOk(l'.sys.store.pending, l'.sys.threads[u], l'.phases[u]) {
      assert PhaseOk(l.sys.store.pending, l.sys.threads[u], l.phases[u]);
      if u != t {
        assert l'.sys.threads[u] == l.sys.threads[u] && l'.phases[u] == l.phases[u];
        if PlanOf(l.phases[u]).Some? {
          HolderIsOwner(l, u, PendingLock);
          if Holds(l.sys.threads[t], l.phases[t], PendingLock) {
            HolderIsOwner(l, t, PendingLock);
            assert false;
          }
        }
      }
    }
  }

  /** A step takes a free lock, gives back one of its own, or neither. */
  predicate MovesLock(l: LockSystem, l': LockSystem, t: nat, k: Lock) {
    IsThread(l', t)
    && (Holds(l'.sys.threads[t], l'.phases[t], k) <==> k in l'.owner && l'.owner[k] == t)
    && (k in l.owner && l.owner[k] != t ==> k in l'.owner && l'.owner[k] == l.owner[k])
    && (k in l'.owner && l'.owner[k] != t ==> k in l.owner && l'.owner[k] == l.owner[k])
  }

  predicate IsCaller(l: LockSystem, t: nat, k: Lock) {
    IsThread(l, t) && NextCall(l.sys.threads[t]).Some? && PhaseOk(l.sys.store.pending, l.sys.threads[t], l.phases[t])
    && (Holds(l.sys.threads[t], l.phases[t], k) <==> k in l.owner && l.owner[k] == t)
  }

  lemma TakingMovesLock(l: LockSystem, t: nat, k: Lock)
    requires IsCaller(l, t, k) && (l.phases[t].Outside? || l.phases[t].WantPayments?)
    ensures MovesLock(l, CallStep(l, t, NextCall(l.sys.threads[t]).value), t, k)
  {
    hide NextCall, PlanOk;
  }

  lemma WorkingMovesLock(l: LockSystem, t: nat, k: Lock)
    requires IsCaller(l, t, k) && (l.phases[t].HoldFirst? || l.phases[t].HoldBoth?)
    ensures MovesLock(l, CallStep(l, t, NextCall(l.sys.threads[t]).value), t, k)
  {
    var c := NextCall(l.sys.threads[t]).value;
    WorkFirstShape(l, t, c);
    if l.phases[t].HoldBoth? {
      WorkBothShape(l, t, c, l.phases[t].plan);
    }
    hide NextCall, PlanOk, WorkFirst, WorkBoth, FirstLock;
  }

  lemma LeavingMovesLock(l: LockSystem, t: nat, k: Lock)
    requires IsCaller(l, t, k) && (l.phases[t].LeaveBoth? || l.phases[t].LeaveFirst?)
    ensures MovesLock(l, CallStep(l, t, NextCall(l.sys.threads[t]).value), t, k)
  {
    var c := NextCall(l.sys.threads[t]).value;
    assert c.Validate? ==> FirstLock(c) == PendingLock;
    hide NextCall, PlanOk, After, FirstLock;
  }

  lemma StepMovesLock(mint: Mint, l: LockSystem, t: nat, req: Request, k: Lock)
    requires IsThread(l, t) && PhaseOk(l.sys.store.pending, l.sys.threads[t], l.phases[t])
    requires Holds(l.sys.threads[t], l.phases[t], k) <==> k in l.owner && l.owner[k] == t
    ensures MovesLock(l, LockStep(mint, l, t, req), t, k)
  {
    hide CallStep, NextCall, Step, PlanOk;
    if NextCall(l.sys.threads[t]).None? {
      LocalShape(mint, l, t, req);
    } else if l.phases[t].Outside? || l.phases[t].WantPayments? {
      TakingMovesLock(l, t, k);
    } else if l.phases[t].HoldFirst? || l.phases[t].HoldBoth? {
      WorkingMovesLock(l, t, k);
    } else {
      LeavingMovesLock(l, t, k);
    }
  }

  lemma OwnersStayOk(mint: Mint, l: LockSystem, t: nat, req: Request)
    requires LockInv(l) && IsThread(l, t)
    ensures OwnersOk(LockStep(mint, l, t, req))
  {
    var l' := LockStep(mint, l, t, req);
    LockStepShape(mint, l, t, req);
    assert forall k :: Holds(l.sys.threads[t], l.phases[t], k) <==> k in l.owner && l.owner[k] == t;
    forall k ensures MovesLock(l, l', t, k) {
      StepMovesLock(mint, l, t, req, k);
    }
    hide LockStep, Holds, PhaseOk;
    OwnersFollow(l, l', t);
  }

  lemma OwnersFollow(l: LockSystem, l': LockSystem, t: nat)
    requires OwnersOk(l) && IsThread(l, t) && IsThread(l', t) && |l'.phases| == |l.phases|
    requires l'.phases == l.phases[t := l'.phases[t]] && l'.sys.threads == l.sys.threads[t := l'.sys.threads[t]]
    requires forall k :: MovesLock(l, l', t, k)
    ensures OwnersOk(l')
  {
    hide Holds;
    forall u: nat, k | IsThread(l', u) && Holds(l'.sys.threads[u], l'.phases[u], k)
      ensures k in l'.owner && l'.owner[k] == u
    {
      assert MovesLock(l, l', t, k);
      if u != t {
        HolderIsOwner(l, u, k);
      }
    }
    forall k | k in l'.owner
      ensures IsThread(l', l'.owner[k]) && Holds(l'.sys.threads[l'.owner[k]], l'.phases[l'.owner[k]], k)
    {
      assert MovesLock(l, l', t, k);
      assert l'.owner[k] != t ==> IsThread(l, l.owner[k]);
    }
  }

  lemma LockStepKeeps(mint: Mint, l: LockSystem, t: nat, req: Request)
    requires LockInv(l)
    ensures LockInv(LockStep(mint, l, t, req))
  {
    if IsThread(l, t) {
      PhasesStayOk(mint, l, t, req);
      OwnersStayOk(mint, l, t, req);
      LockStepShape(mint, l, t, req);
    }
  }

  lemma {:induction false} LockRunKeeps(mint: Mint, n: nat, schedule: Schedule)
    ensures LockInv(LockRun(mint, n, schedule)) && |LockRun(mint, n, schedule).phases| == n
  {
    if schedule == [] {
      LockInitOk(n);
    } else {
      var front, last := schedule[..|schedule| - 1], schedule[|schedule| - 1];
      LockRunKeeps(mint, n, front);
      LockStepKeeps(mint, LockRun(mint, n, front), last.0, last.1);
      if IsThread(LockRun(mint, n, front), last.0) {
        LockStepShape(mint, LockRun(mint, n, front), last.0, last.1);
      }
    }
  }

  /** Each map is only ever written by a thread that holds the lock of that map. */
  lemma MapsAreGuarded(mint: Mint, l: LockSystem, t: nat, req: Request)
    requires IsThread(l, t)
    ensures var s, s' := l.sys.store, LockStep(mint, l, t, req).sys.store;
      (s'.payments != s.payments ==> Holds(l.sys.threads[t], l.phases[t], PaymentsLock))
      && (s'.pending != s.pending ==> Holds(l.sys.threads[t], l.phases[t], PendingLock))
      && (s'.notify != s.notify ==> Holds(l.sys.threads[t], l.phases[t], NotifyLock))
  {
    hide Step, CallStep, NextCall;
    if NextCall(l.sys.threads[t]).None? {
      LocalShape(mint, l, t, req);
    } else {
      CallIsGuarded(l, t);
    }
  }

  lemma WorkFirstIsGuarded(l: LockSystem, t: nat, c: Call)
    requires IsThread(l, t)
    ensures var s, s' := l.sys.store, WorkFirst(l, t, c).sys.store;
      (s'.payments != s.payments ==> FirstLock(c) == PaymentsLock)
      && (s'.pending != s.pending ==> FirstLock(c) == PendingLock)
      && (s'.notify != s.notify ==> FirstLock(c) == NotifyLock)
  {
    if !c.Validate? {
      PlainCallIsGuarded(l.sys.store, c);
    }
    hide Apply, Judge;
  }

  lemma PlainCallIsGuarded(s: Store, c: Call)
    requires !c.Validate?
    ensures var s' := Apply(s, c).0;
      (s'.payments != s.payments ==> FirstLock(c) == PaymentsLock)
      && (s'.pending != s.pending ==> FirstLock(c) == PendingLock)
      && (s'.notify != s.notify ==> FirstLock(c) == NotifyLock)
  {
  }

  lemma WorkBothIsGuarded(l: LockSystem, t: nat, c: Call, plan: Plan)
    requires IsThread(l, t) && c.Validate?
    ensures var s, s' := l.sys.store, WorkBoth(l, t, c, plan).sys.store;
      s'.pending == s.pending && s'.notify == s.notify
  {
    hide SettlePayment;
  }

  lemma CallIsGuarded(l: LockSystem, t: nat)
    requires IsThread(l, t) && NextCall(l.sys.threads[t]).Some?
    ensures var s, s' := l.sys.store, CallStep(l, t, NextCall(l.sys.threads[t]).value).sys.store;
      (s'.payments != s.payments ==> Holds(l.sys.threads[t], l.phases[t], PaymentsLock))
      && (s'.pending != s.pending ==> Holds(l.sys.threads[t], l.phases[t], PendingLock))
      && (s'.notify != s.notify ==> Holds(l.sys.threads[t], l.phases[t], NotifyLock))
  {
    var c := NextCall(l.sys.threads[t]).value;
    WorkFirstIsGuarded(l, t, c);
    if l.phases[t].HoldBoth? && c.Validate? {
      WorkBothIsGuarded(l, t, c, l.phases[t].plan);
    }
    hide NextCall, WorkFirst, WorkBoth, After, FirstLock;
  }

  // ----- the refinement -----

  /** The entry a validation has removed but whose payment it has not settled yet. */
  function LimboOf(a: Activation, phase: Phase): map<string, Validation> {
    var plan, c := PlanOf(phase), NextCall(a);
    if plan.Some? && plan.value.SettleAs? && c.Some? && c.value.Validate? then map[c.value.id := plan.value.removed]
    else map[]
  }

  function InLimbo(l: LockSystem): map<string, Validation> {
    if PendingLock !in l.owner || !IsThread(l, l.owner[PendingLock]) then map[]
    else LimboOf(l.sys.threads[l.owner[PendingLock]], l.phases[l.owner[PendingLock]])
  }

  /** A thread that has done its work counts as having finished the call. */
  function Finished(a: Activation, phase: Phase): Activation {
    match phase
    case LeaveBoth(r) => After(a, r)
    case LeaveFirst(r) => After(a, r)
    case _ => a
  }

  /** The state in which every store call happens at one instant. */
  function Abstract(l: LockSystem): System
    requires |l.phases| == |l.sys.threads|
  {
    l.sys.(store := l.sys.store.(pending := l.sys.store.pending + InLimbo(l)),
           threads := seq(|l.phases|, t requires 0 <= t < |l.phases| => Finished(l.sys.threads[t], l.phases[t])))
  }

  /** The steps at which a store call takes effect, and the steps that touch no store. */
  predicate TakesEffect(l: LockSystem, t: nat) {
    IsThread(l, t)
    && var c := NextCall(l.sys.threads[t]);
       (c.None?
       || l.phases[t].HoldBoth?
       || (l.phases[t].HoldFirst?
          && !(c.value.Validate?
               && (c.value.id !in l.sys.store.pending
                   || Judge(l.sys.store.pending[c.value.id], c.value.authorizationId, c.value.code).Settle?))))
  }

  lemma AbstractThreads(l: LockSystem, l': LockSystem, t: nat)
    requires |l.phases| == |l.sys.threads| && |l'.phases| == |l'.sys.threads| == |l.phases| && t < |l.phases|
    requires l'.phases == l.phases[t := l'.phases[t]] && l'.sys.threads == l.sys.threads[t := l'.sys.threads[t]]
    ensures Abstract(l').threads == Abstract(l).threads[t := Finished(l'.sys.threads[t], l'.phases[t])]
  {
  }

  /** A thread that holds the pending lock after a step, or never touches it, decides the limbo entry. */
  lemma LimboStays(mint: Mint, l: LockSystem, t: nat, req: Request)
    requires LockInv(l) && IsThread(l, t)
    requires !Holds(l.sys.threads[t], l.phases[t], PendingLock)
    ensures InLimbo(LockStep(mint, l, t, req)) == InLimbo(l)
    ensures LockStep(mint, l, t, req).sys.store.pending == l.sys.store.pending
  {
    LockStepShape(mint, l, t, req);
    PendingIsProtected(mint, l, t, req);
    StepMovesLock(mint, l, t, req, PendingLock);
    LockStepKeeps(mint, l, t, req);
    var l' := LockStep(mint, l, t, req);
    if PendingLock in l'.owner && l'.owner[PendingLock] == t {
      assert Holds(l'.sys.threads[t], l'.phases[t], PendingLock);
      assert PlanOf(l'.phases[t]).None?;
      assert PendingLock !in l.owner;
    }
    hide LockStep;
  }

  /** A call that does not concern the pending map does the same whatever that map holds. */
  lemma PendingIsSpectator(s: Store, c: Call, pending: map<string, Validation>)
    requires FirstLock(c) != PendingLock
    ensures var (b, r) := Apply(s, c);
      Apply(s.(pending := pending), c) == (b.(pending := pending), r) && b.pending == s.pending
  {
  }

  lemma AbstractOfThread(l: LockSystem, t: nat)
    requires IsThread(l, t)
    ensures |Abstract(l).threads| == |l.phases|
    ensures Abstract(l).threads[t] == Finished(l.sys.threads[t], l.phases[t])
  {
  }

  lemma LocalStepRefines(mint: Mint, l: LockSystem, t: nat, req: Request)
    requires LockInv(l) && IsThread(l, t) && NextCall(l.sys.threads[t]).None?
    ensures Abstract(LockStep(mint, l, t, req)) == Step(mint, Abstract(l), t, req)
  {
    var l' := LockStep(mint, l, t, req);
    assert PhaseOk(l.sys.store.pending, l.sys.threads[t], l.phases[t]);
    assert l.phases[t] == Outside;
    LimboStays(mint, l, t, req);
    LockStepShape(mint, l, t, req);
    AbstractThreads(l, l', t);
    AbstractOfThread(l, t);
    hide LockInv, CallStep, InLimbo;
  }

  /** With the first lock held, work outside the pending map is one atomic call. */
  lemma PlainCallRefines(mint: Mint, l: LockSystem, t: nat, req: Request)
    requires LockInv(l) && IsThread(l, t) && NextCall(l.sys.threads[t]).Some? && l.phases[t] == HoldFirst
    requires FirstLock(NextCall(l.sys.threads[t]).value) != PendingLock
    ensures Abstract(LockStep(mint, l, t, req)) == Step(mint, Abstract(l), t, req)
  {
    var l' := LockStep(mint, l, t, req);
    var c := NextCall(l.sys.threads[t]).value;
    LimboStays(mint, l, t, req);
    LockStepShape(mint, l, t, req);
    AbstractThreads(l, l', t);
    AbstractOfThread(l, t);
    PendingIsSpectator(l.sys.store, c, l.sys.store.pending + InLimbo(l));
    hide Apply, After, InLimbo;
  }

  /** The thread that holds the pending lock without a plan sees the whole pending map. */
  lemma NoLimboBesideHolder(l: LockSystem, t: nat)
    requires LockInv(l) && IsThread(l, t) && Holds(l.sys.threads[t], l.phases[t], PendingLock)
    requires PlanOf(l.phases[t]).None? || PlanOf(l.phases[t]).value.Look?
    ensures InLimbo(l) == map[] && l.sys.store.pending + InLimbo(l) == l.sys.store.pending
  {
    HolderIsOwner(l, t, PendingLock);
  }

  /** A call that needs the pending lock only does all its work in one step. */
  lemma OneLockIsCall(l: LockSystem, t: nat)
    requires TakesEffect(l, t) && NextCall(l.sys.threads[t]).Some? && l.phases[t] == HoldFirst
    requires FirstLock(NextCall(l.sys.threads[t]).value) == PendingLock
    ensures var c := NextCall(l.sys.threads[t]).value;
      var (store, r) := Apply(l.sys.store, c);
      CallStep(l, t, c) == WithPhase(l.(sys := l.sys.(store := store)), t, LeaveFirst(r))
      && !r.Confirmed? && !r.CancelledNow?
  {
    hide NextCall;
  }

  lemma PendingCallRefines(mint: Mint, l: LockSystem, t: nat, req: Request)
    requires LockInv(l) && TakesEffect(l, t) && NextCall(l.sys.threads[t]).Some? && l.phases[t] == HoldFirst
    requires FirstLock(NextCall(l.sys.threads[t]).value) == PendingLock
    ensures Abstract(LockStep(mint, l, t, req)) == Step(mint, Abstract(l), t, req)
  {
    var l' := LockStep(mint, l, t, req);
    NoLimboBesideHolder(l, t);
    LockStepKeeps(mint, l, t, req);
    LockStepShape(mint, l, t, req);
    NoLimboBesideHolder(l', t);
    AbstractThreads(l, l', t);
    AbstractOfThread(l, t);
    StepOfCall(mint, Abstract(l), t, req);
    OneLockIsCall(l, t);
    hide After, InLimbo, LockInv, Step, Finished, Apply, CallStep, NextCall, TakesEffect;
  }

  lemma StepOfCall(mint: Mint, s: System, t: nat, req: Request)
    requires t < |s.threads| && NextCall(s.threads[t]).Some?
    ensures var c := NextCall(s.threads[t]).value;
      var (store, r) := Apply(s.store, c);
      Step(mint, s, t, req) == s.(
        store := store, threads := s.threads[t := After(s.threads[t], r)],
        wins := if r.Confirmed? || r.CancelledNow? then s.wins + multiset{c.id} else s.wins)
  {
    hide Apply, After, Begin;
  }

  /** Looking and settling, done at once on a store that still holds the entry, are the whole validation. */
  lemma LookIsValidate(s: Store, c: Call)
    requires c.Validate? && c.id !in s.pending
    ensures Apply(s, c) == (s, if c.id in s.payments then NotPending else Unknown)
  {
  }

  lemma SettleIsValidate(s: Store, c: Call, v: Validation, status: Status)
    requires c.Validate? && c.id !in s.pending && Judge(v, c.authorizationId, c.code) == Settle(status)
    ensures Apply(s.(pending := s.pending + map[c.id := v]), c)
         == (s.(payments := SettlePayment(s.payments, c.id, status)), SettledOutcome(status))
  {
    assert (s.pending + map[c.id := v]) - {c.id} == s.pending;
    hide Judge, SettlePayment;
  }

  lemma LimboOfHolder(l: LockSystem, t: nat)
    requires LockInv(l) && IsThread(l, t) && Holds(l.sys.threads[t], l.phases[t], PendingLock)
    ensures InLimbo(l) == LimboOf(l.sys.threads[t], l.phases[t])
  {
    HolderIsOwner(l, t, PendingLock);
  }

  /** With both locks held, what is left to do is the whole validation of a store that still holds the entry. */
  lemma BothLocksAreCall(l: LockSystem, t: nat)
    requires IsThread(l, t) && NextCall(l.sys.threads[t]).Some? && l.phases[t].HoldBoth?
    requires PhaseOk(l.sys.store.pending, l.sys.threads[t], l.phases[t])
    ensures var c := NextCall(l.sys.threads[t]).value;
      var whole := l.sys.store.pending + LimboOf(l.sys.threads[t], l.phases[t]);
      var (store, r) := Apply(l.sys.store.(pending := whole), c);
      CallStep(l, t, c) == WithPhase(l.(sys := l.sys.(store := store)), t, LeaveBoth(r))
      && !r.Confirmed? && !r.CancelledNow?
  {
    var c, plan, store := NextCall(l.sys.threads[t]).value, l.phases[t].plan, l.sys.store;
    assert PlanOk(store.pending, c, plan);
    assert CallStep(l, t, c) == WorkBoth(l, t, c, plan);
    hide CallStep, Apply, SettlePayment, Judge, NextCall, PhaseOk;
    if plan.SettleAs? {
      SettleIsValidate(store, c, plan.removed, plan.status);
    } else {
      assert store.pending + map[] == store.pending;
      LookIsValidate(store, c);
    }
  }

  /** A validation takes effect when it looks at, or settles, the payment with both locks held. */
  lemma NestedCallRefines(mint: Mint, l: LockSystem, t: nat, req: Request)
    requires LockInv(l) && IsThread(l, t) && NextCall(l.sys.threads[t]).Some? && l.phases[t].HoldBoth?
    ensures Abstract(LockStep(mint, l, t, req)) == Step(mint, Abstract(l), t, req)
  {
    var l' := LockStep(mint, l, t, req);
    assert PhaseOk(l.sys.store.pending, l.sys.threads[t], l.phases[t]);
    LockStepKeeps(mint, l, t, req);
    LockStepShape(mint, l, t, req);
    LimboOfHolder(l, t);
    BothLocksAreCall(l, t);
    NoLimboBesideHolder(l', t);
    AbstractThreads(l, l', t);
    AbstractOfThread(l, t);
    StepOfCall(mint, Abstract(l), t, req);
    hide After, InLimbo, LimboOf, LockInv, Step, Finished, Apply, CallStep, NextCall, PhaseOk;
  }

  /** Taking and giving back locks, and removing an entry that is about to be settled, change nothing abstractly. */
  lemma HiddenStepStutters(mint: Mint, l: LockSystem, t: nat, req: Request)
    requires LockInv(l) && !TakesEffect(l, t)
    ensures Abstract(LockStep(mint, l, t, req)) == Abstract(l)
  {
    if IsThread(l, t) {
      var l' := LockStep(mint, l, t, req);
      LockStepShape(mint, l, t, req);
      AbstractThreads(l, l', t);
      AbstractOfThread(l, t);
      assert Abstract(l).threads[t := Abstract(l).threads[t]] == Abstract(l).threads;
      HiddenStepKeepsPending(mint, l, t, req);
      assert PhaseOk(l.sys.store.pending, l.sys.threads[t], l.phases[t]);
      HiddenCallFinishesNothing(l, t);
      hide InLimbo, LockInv, CallStep, TakesEffect, Finished, PhaseOk;
    }
  }

  lemma HiddenCallFinishesNothing(l: LockSystem, t: nat)
    requires IsThread(l, t) && !TakesEffect(l, t) && PhaseOk(l.sys.store.pending, l.sys.threads[t], l.phases[t])
    ensures NextCall(l.sys.threads[t]).Some?
    ensures var l' := CallStep(l, t, NextCall(l.sys.threads[t]).value);
      IsThread(l', t) && Finished(l'.sys.threads[t], l'.phases[t]) == Finished(l.sys.threads[t], l.phases[t])
      && l'.sys.(threads := l.sys.threads, store := l'.sys.store.(pending := l.sys.store.pending)) == l.sys
  {
    hide NextCall, After, Apply;
  }

  lemma HiddenStepKeepsPending(mint: Mint, l: LockSystem, t: nat, req: Request)
    requires LockInv(l) && IsThread(l, t) && !TakesEffect(l, t)
    ensures var l' := LockStep(mint, l, t, req);
      l'.sys.store.pending + InLimbo(l') == l.sys.store.pending + InLimbo(l)
  {
    var l' := LockStep(mint, l, t, req);
    if !Holds(l.sys.threads[t], l.phases[t], PendingLock) {
      LimboStays(mint, l, t, req);
    } else {
      assert PhaseOk(l.sys.store.pending, l.sys.threads[t], l.phases[t]);
      LimboOfHolder(l, t);
      LockStepKeeps(mint, l, t, req);
      LockStepShape(mint, l, t, req);
      if l.phases[t].LeaveFirst? {
        LeavingHasNoLimbo(mint, l, t, req);
      } else {
        HiddenCallKeepsPending(l, t);
        LimboOfHolder(l', t);
      }
    }
    hide LockInv, InLimbo, LimboOf, LockStep;
  }

  lemma LeavingHasNoLimbo(mint: Mint, l: LockSystem, t: nat, req: Request)
    requires LockInv(l) && IsThread(l, t)
    requires Holds(l.sys.threads[t], l.phases[t], PendingLock) && l.phases[t].LeaveFirst?
    ensures var l' := LockStep(mint, l, t, req);
      InLimbo(l) == map[] && InLimbo(l') == map[] && l'.sys.store == l.sys.store
  {
    HolderIsOwner(l, t, PendingLock);
  }

  /** Until it settles or leaves, a validation that holds the pending lock keeps what it removed in limbo. */
  lemma HiddenCallKeepsPending(l: LockSystem, t: nat)
    requires IsThread(l, t) && !TakesEffect(l, t) && Holds(l.sys.threads[t], l.phases[t], PendingLock)
    requires PhaseOk(l.sys.store.pending, l.sys.threads[t], l.phases[t]) && !l.phases[t].LeaveFirst?
    ensures var l' := CallStep(l, t, NextCall(l.sys.threads[t]).value);
      IsThread(l', t) && Holds(l'.sys.threads[t], l'.phases[t], PendingLock)
      && l'.sys.store.pending + LimboOf(l'.sys.threads[t], l'.phases[t])
         == l.sys.store.pending + LimboOf(l.sys.threads[t], l.phases[t])
  {
    var c := NextCall(l.sys.threads[t]).value;
    if l.phases[t].HoldFirst? {
      var pending := l.sys.store.pending;
      assert c.id in pending ==> (pending - {c.id}) + map[c.id := pending[c.id]] == pending;
    }
    hide NextCall, Apply, SettlePayment, After;
  }

  /** One step at lock granularity is one atomic step of the same thread, or no step at all. */
  lemma LockStepRefines(mint: Mint, l: LockSystem, t: nat, req: Request)
    requires LockInv(l)
    ensures Abstract(LockStep(mint, l, t, req))
         == if TakesEffect(l, t) then Step(mint, Abstract(l), t, req) else Abstract(l)
  {
    if !TakesEffect(l, t) {
      HiddenStepStutters(mint, l, t, req);
    } else if NextCall(l.sys.threads[t]).None? {
      LocalStepRefines(mint, l, t, req);
    } else if l.phases[t].HoldBoth? {
      NestedCallRefines(mint, l, t, req);
    } else if FirstLock(NextCall(l.sys.threads[t]).value) == PendingLock {
      PendingCallRefines(mint, l, t, req);
    } else {
      PlainCallRefines(mint, l, t, req);
    }
  }

  /** The entries of a schedule at which a store call takes effect. */
  function Linearised(mint: Mint, n: nat, schedule: Schedule): Schedule {
    if schedule == [] then []
    else
      var front, last := schedule[..|schedule| - 1], schedule[|schedule| - 1];
      Linearised(mint, n, front) + if TakesEffect(LockRun(mint, n, front), last.0) then [last] else []
  }

  /**
   Every run at lock granularity, with any mix of handlers, is abstractly a run of atomic store
   calls: each call takes effect once, at a step of its own thread while it holds its locks.
   */
  lemma {:induction false} LockRunRefines(mint: Mint, n: nat, schedule: Schedule)
    ensures LockInv(LockRun(mint, n, schedule))
    ensures Abstract(LockRun(mint, n, schedule)) == Run(mint, n, Linearised(mint, n, schedule))
  {
    LockRunKeeps(mint, n, schedule);
    if schedule == [] {
      AbstractOfInit(n);
    } else {
      hide LockStep, Abstract, TakesEffect, LockInv, Step;
      var front, last := schedule[..|schedule| - 1], schedule[|schedule| - 1];
      LockRunRefines(mint, n, front);
      LockStepRefines(mint, LockRun(mint, n, front), last.0, last.1);
      var earlier := Linearised(mint, n, front);
      if TakesEffect(LockRun(mint, n, front), last.0) {
        assert Linearised(mint, n, schedule) == earlier + [last];
        assert (earlier + [last])[..|earlier|] == earlier;
      } else {
        assert Linearised(mint, n, schedule) == earlier;
      }
    }
  }

  lemma AbstractOfInit(n: nat)
    ensures Abstract(LockInit(n)) == Init(n)
  {
    assert Abstract(LockInit(n)).threads == Init(n).threads;
  }

  /** What the atomic runs guarantee therefore holds between any two lock operations. */
  lemma GuaranteesBetweenLocks(mint: Mint, n: nat, schedule: Schedule, id: string)
    requires IsInjective(mint)
    ensures var s := LockRun(mint, n, schedule).sys;
      (id in s.store.pending ==>
         id in s.store.payments && s.store.payments[id].status == PendingValidation
         && s.store.payments[id].authorizationId == Some(s.store.pending[id].authorizationId))
      && s.wins[id] <= 1
      && TerminalEvents(s.log, id) <= 1
      && forall i :: 0 <= i < |s.log| && IsTerminal(s.log[i].kind) && s.log[i].paymentId == id ==>
           id in s.store.payments && s.store.payments[id].status == StatusOf(s.log[i].kind)
           && id in s.given && s.log[i].target == s.given[id]
  {
    LockRunRefines(mint, n, schedule);
    var l, atomic := LockRun(mint, n, schedule), Linearised(mint, n, schedule);
    var s := Run(mint, n, atomic);
    PendingInsideAwaiting(mint, n, atomic, id);
    AtMostOneWin(mint, n, atomic, id);
    LimboIsNotPending(l);
    forall i | 0 <= i < |s.log| && IsTerminal(s.log[i].kind) && s.log[i].paymentId == id
      ensures id in s.store.payments && s.store.payments[id].status == StatusOf(s.log[i].kind)
      ensures id in s.given && s.log[i].target == s.given[id]
    {
      TerminalEventsAgree(mint, n, atomic, i);
    }
    if TerminalEvents(s.log, id) > 1 {
      var i := CountedEvent(s.log, id);
      TerminalEventsAgree(mint, n, atomic, i);
    }
    hide LockRun, Run, InLimbo, LockInv;
  }

  lemma LimboIsNotPending(l: LockSystem)
    requires LockInv(l)
    ensures forall id :: id in l.sys.store.pending ==> id !in InLimbo(l)
  {
  }

  /** With no handler in flight no lock is held and nothing is in limbo. */
  lemma QuietIsAbstract(l: LockSystem)
    requires LockInv(l) && IsQuiet(l.sys)
    ensures Abstract(l) == l.sys
  {
    assert InLimbo(l) == map[];
    assert l.sys.store.pending + map[] == l.sys.store.pending;
    forall t | 0 <= t < |l.phases| ensures Finished(l.sys.threads[t], l.phases[t]) == l.sys.threads[t] {
      assert PhaseOk(l.sys.store.pending, l.sys.threads[t], l.phases[t]);
    }
    hide LockInv, InLimbo, Finished;
    assert Abstract(l).threads == l.sys.threads;
  }

  /** Once no handler is in flight a run at lock granularity has reached exactly the state of its atomic run. */
  lemma QuietRunIsAtomic(mint: Mint, n: nat, schedule: Schedule)
    requires IsQuiet(LockRun(mint, n, schedule).sys)
    ensures LockRun(mint, n, schedule).sys == Run(mint, n, Linearised(mint, n, schedule))
  {
    LockRunRefines(mint, n, schedule);
    hide LockRun, LockInv, Run;
    QuietIsAbstract(LockRun(mint, n, schedule));
  }

  /** So what holds of quiet states holds at lock granularity too. */
  lemma QuietGuarantees(mint: Mint, n: nat, schedule: Schedule, id: string)
    requires IsInjective(mint) && IsQuiet(LockRun(mint, n, schedule).sys)
    ensures var s := LockRun(mint, n, schedule).sys;
      var awaiting := id in s.store.payments && s.store.payments[id].status == PendingValidation;
      (id in s.store.pending <==> awaiting)
      && (awaiting <==> id in s.store.payments && s.store.payments[id].authorizationId.Some?)
      && (awaiting ==> s.store.payments[id].authorizationId == Some(s.store.pending[id].authorizationId)
                       && 1 <= s.store.pending[id].attemptsLeft <= 3)
    ensures var s := LockRun(mint, n, schedule).sys;
      id in s.given ==> TerminalEvents(s.log, id) == if id in s.store.notify then 0 else 1
    ensures var s := LockRun(mint, n, schedule).sys;
      id in s.given && id in s.store.payments ==>
        ((TerminalEvents(s.log, id) == if IsSettled(s.store.payments[id].status) then 1 else 0)
         <==> NeverTakenEarly(mint, n, Linearised(mint, n, schedule), id))
  {
    var atomic := Linearised(mint, n, schedule);
    QuietRunIsAtomic(mint, n, schedule);
    hide LockRun, Run;
    StoresAgreeWhenQuiet(mint, n, atomic, id);
    if id in Run(mint, n, atomic).given {
      SinkSpentOrKept(mint, n, atomic, id);
      if id in Run(mint, n, atomic).store.payments {
        NotifiedIffNeverTakenEarly(mint, n, atomic, id);
      }
    }
  }

  // ----- no deadlock -----

  predicate IsBusy(l: LockSystem, t: nat) {
    IsThread(l, t) && l.sys.threads[t] != Idle
  }

  /** The thread needs a lock that is held. */
  predicate IsBlocked(l: LockSystem, t: nat) {
    IsThread(l, t) && NextCall(l.sys.threads[t]).Some?
    && ((l.phases[t].Outside? && FirstLock(NextCall(l.sys.threads[t]).value) in l.owner)
        || (l.phases[t].WantPayments? && PaymentsLock in l.owner))
  }

  /** In every reachable state, while a handler is in flight some handler in flight can move. */
  lemma NoDeadlock(mint: Mint, n: nat, schedule: Schedule, t: nat)
    requires IsBusy(LockRun(mint, n, schedule), t)
    ensures exists u :: IsBusy(LockRun(mint, n, schedule), u) && !IsBlocked(LockRun(mint, n, schedule), u)
  {
    LockRunKeeps(mint, n, schedule);
    var l := LockRun(mint, n, schedule);
    var u := if PaymentsLock in l.owner then l.owner[PaymentsLock]
             else if PendingLock in l.owner then l.owner[PendingLock]
             else if NotifyLock in l.owner then l.owner[NotifyLock]
             else t;
    hide LockRun;
    CanMove(l, u);
  }

  lemma CanMove(l: LockSystem, u: nat)
    requires LockInv(l)
    requires if PaymentsLock in l.owner then u == l.owner[PaymentsLock]
             else if PendingLock in l.owner then u == l.owner[PendingLock]
             else if NotifyLock in l.owner then u == l.owner[NotifyLock]
             else IsBusy(l, u)
    ensures IsBusy(l, u) && !IsBlocked(l, u)
  {
  }

  /** Store calls and deliveries a handler can still make. */
  function CallsLeft(a: Activation): nat {
    match a
    case Idle => 0
    case Emitting(_) => 1
    case Taking(_, _) => 2
    case Calling(_) => 3
    case Awaiting(_, _) => 1
    case Stashing(_, _, _) => 2
    case Announcing(_, _) => 3
    case Preparing(_, _, _, _) => 4
    case Creating(_, _, _) => 2
  }

  function StepsDone(phase: Phase): (d: nat)
    ensures d <= 5
  {
    match phase
    case Outside => 0
    case HoldFirst => 1
    case WantPayments(_) => 2
    case HoldBoth(_) => 3
    case LeaveBoth(_) => 4
    case LeaveFirst(_) => 5
  }

  /** Steps a handler still has to make, waiting not counted. */
  function StepsLeft(a: Activation, phase: Phase): nat {
    if CallsLeft(a) == 0 then 0 else 6 * CallsLeft(a) - StepsDone(phase)
  }

  lemma AnsweredIsCloser(a: Activation, r: Outcome)
    requires NextCall(a).Some?
    ensures CallsLeft(After(a, r)) < CallsLeft(a)
  {
  }

  lemma WorkMovesOn(l: LockSystem, t: nat, c: Call)
    requires IsThread(l, t)
    ensures var l' := WorkFirst(l, t, c);
      IsThread(l', t) && l'.sys.threads == l.sys.threads && (l'.phases[t].LeaveFirst? || l'.phases[t].WantPayments?)
    ensures c.Validate? ==> forall plan ::
      var l' := WorkBoth(l, t, c, plan);
      IsThread(l', t) && l'.sys.threads == l.sys.threads && l'.phases[t].LeaveBoth?
  {
    hide Apply, Judge, SettlePayment;
  }

  lemma LocalMoveIsProgress(mint: Mint, s: System, t: nat, req: Request)
    requires t < |s.threads| && s.threads[t] != Idle && NextCall(s.threads[t]).None?
    ensures |Step(mint, s, t, req).threads| == |s.threads|
    ensures CallsLeft(Step(mint, s, t, req).threads[t]) < CallsLeft(s.threads[t])
  {
  }

  lemma CallMoveIsProgress(mint: Mint, l: LockSystem, t: nat, req: Request)
    requires IsBusy(l, t) && NextCall(l.sys.threads[t]).Some? && !IsBlocked(l, t)
    requires PhaseOk(l.sys.store.pending, l.sys.threads[t], l.phases[t])
    ensures var l' := LockStep(mint, l, t, req);
      IsThread(l', t) && StepsLeft(l'.sys.threads[t], l'.phases[t]) < StepsLeft(l.sys.threads[t], l.phases[t])
  {
    var a, phase := l.sys.threads[t], l.phases[t];
    hide Apply, WorkFirst, WorkBoth, Step, After;
    if phase.LeaveFirst? {
      AnsweredIsCloser(a, phase.outcome);
    } else {
      WorkMovesOn(l, t, NextCall(a).value);
    }
  }

  /** A handler in flight that is not blocked comes closer to its end at every step; a blocked one changes nothing. */
  lemma MovesAreProgress(mint: Mint, l: LockSystem, t: nat, req: Request)
    requires LockInv(l) && IsBusy(l, t)
    ensures var l' := LockStep(mint, l, t, req);
      IsThread(l', t)
      && if IsBlocked(l, t) then l' == l
         else StepsLeft(l'.sys.threads[t], l'.phases[t]) < StepsLeft(l.sys.threads[t], l.phases[t])
  {
    assert PhaseOk(l.sys.store.pending, l.sys.threads[t], l.phases[t]);
    hide Apply, LockInv, WorkFirst, WorkBoth, After, Step;
    if NextCall(l.sys.threads[t]).None? {
      LocalMoveIsProgress(mint, l.sys, t, req);
    } else if !IsBlocked(l, t) {
      CallMoveIsProgress(mint, l, t, req);
    }
  }
}
