/**
 The concurrency limit under a clock that may jump either way: exactly when it holds at every
 reading, for one reservation and for whole runs.
 */
module BudgetConcurrency {
  import opened Wrappers
  import opened Budget
  import opened BudgetConservation

  /** The still-reserved calls of an account, expired or not. */
  function ReservedOf(a: Account): Call -> bool
  {
    (c: Call) => Bills(c, a) && c.status == Reserved
  }

  /** A reading at which no lease of these calls has ended. */
  function EarlyReading(calls: seq<Call>): real
  {
    if calls == [] then 0.0
    else
      var rest, last := EarlyReading(calls[..|calls| - 1]), calls[|calls| - 1].leaseUntil - 1.0;
      if last < rest then last else rest
  }

  lemma {:induction false} AllActiveEarly(calls: seq<Call>, a: Account, t: real)
    requires t <= EarlyReading(calls)
    ensures Count(calls, ActiveAt(a, t)) == Count(calls, ReservedOf(a))
  {
    if calls != [] {
      AllActiveEarly(calls[..|calls| - 1], a, t);
    }
  }

  /** An account stays within `n` active calls at every reading exactly when it has at most `n` unsettled ones. */
  lemma ActiveAlwaysIff(calls: seq<Call>, a: Account, n: int)
    ensures (forall t :: Count(calls, ActiveAt(a, t)) <= n) <==> Count(calls, ReservedOf(a)) <= n
  {
    AllActiveEarly(calls, a, EarlyReading(calls));
    forall t ensures Count(calls, ActiveAt(a, t)) <= Count(calls, ReservedOf(a)) {
      CountWeaker(calls, ActiveAt(a, t), ReservedOf(a));
    }
  }

  /** What a caller can count before reserving: every scope has fewer unsettled calls than the limit. */
  predicate HasSlot(l: Ledger, limits: Limits, user: string, model: string)
  {
    forall a :: a in ScopesOf(user, model) ==> Count(l.calls, ReservedOf(a)) < limits.concurrency
  }

  /** The account stays within the limit whatever the clock will read. */
  ghost predicate WithinLimit(l: Ledger, limits: Limits, a: Account)
  {
    forall t :: Count(l.calls, ActiveAt(a, t)) <= limits.concurrency
  }

  lemma ReservedGrows(l: Ledger, limits: Limits, user: string, model: string, tokens: int, now: real, timeout: real, a: Account)
    requires ReserveTx(l, limits, user, model, tokens, now, timeout).1.Ok?
    ensures Count(ReserveTx(l, limits, user, model, tokens, now, timeout).0.calls, ReservedOf(a))
         == Count(l.calls, ReservedOf(a)) + if a in ScopesOf(user, model) then 1 else 0
  {
    var c := NewCall(user, model, tokens, now, timeout);
    CountAppend(l.calls, c, ReservedOf(a));
    BillsIsScope(c, a);
  }

  /**
   One reservation: an accepted reservation leaves its three scopes within the limit at every clock
   reading if and only if each of them had fewer unsettled calls than the limit before.
   */
  lemma ReserveKeepsLimitIff(l: Ledger, limits: Limits, user: string, model: string, tokens: int, now: real, timeout: real)
    requires ReserveTx(l, limits, user, model, tokens, now, timeout).1.Ok?
    ensures var l' := ReserveTx(l, limits, user, model, tokens, now, timeout).0;
      (forall a :: a in ScopesOf(user, model) ==> WithinLimit(l', limits, a)) <==> HasSlot(l, limits, user, model)
  {
    var l' := ReserveTx(l, limits, user, model, tokens, now, timeout).0;
    forall a | a in ScopesOf(user, model)
      ensures WithinLimit(l', limits, a) <==> Count(l.calls, ReservedOf(a)) < limits.concurrency
    {
      ReservedGrows(l, limits, user, model, tokens, now, timeout, a);
      ActiveAlwaysIff(l'.calls, a, limits.concurrency);
    }
  }

  // ----- whole runs -----

  predicate Accepted(l: Ledger, limits: Limits, step: Step)
  {
    step.Reserve? && ReserveTx(l, limits, step.user, step.model, step.tokens, step.now, step.timeout).1.Ok?
  }

  lemma SettleFrees(l: Ledger, id: nat, usage: Option<(int, int)>, failed: bool, a: Account)
    ensures Count(SettleTx(l, id, usage, failed).calls, ReservedOf(a)) <= Count(l.calls, ReservedOf(a))
  {
    if id < |l.calls| && l.calls[id].status == Reserved {
      CountUpdate(l.calls, id, SettledCall(l.calls[id], usage, failed), ReservedOf(a));
    }
  }

  lemma {:induction false} ExpireFrees(l: Ledger, ids: seq<nat>, a: Account)
    ensures Count(ExpireAll(l, ids).calls, ReservedOf(a)) <= Count(l.calls, ReservedOf(a))
    decreases |ids|
  {
    if ids != [] {
      SettleFrees(l, ids[0], None, false, a);
      ExpireFrees(SettleTx(l, ids[0], None, false), ids[1..], a);
    }
  }

  lemma OtherStepsFree(l: Ledger, limits: Limits, step: Step, a: Account)
    requires !Accepted(l, limits, step)
    ensures Count(Do(l, limits, step).calls, ReservedOf(a)) <= Count(l.calls, ReservedOf(a))
  {
    match step
    case Reserve(_, _, _, _, _) =>
    case Settle(id, usage, failed) => SettleFrees(l, id, usage, failed, a);
    case Reconcile(id, input, output, receipt) =>
      if id < |l.calls| {
        CountUpdate(l.calls, id, l.calls[id].(status := Reconciled, inputTokens := input, outputTokens := output,
          charged := input + output), ReservedOf(a));
      }
    case Expire(ids) => ExpireFrees(l, ids, a);
  }

  /** The k-th step, if it is an accepted reservation, found a slot in each of its scopes. */
  ghost predicate SlotAt(limits: Limits, steps: seq<Step>, k: int)
  {
    0 <= k < |steps| ==>
      var l := Run(EMPTY, limits, steps[..k]);
      Accepted(l, limits, steps[k]) ==> HasSlot(l, limits, steps[k].user, steps[k].model)
  }

  ghost predicate AllHadSlots(limits: Limits, steps: seq<Step>)
  {
    forall k {:trigger SlotAt(limits, steps, k)} :: SlotAt(limits, steps, k)
  }

  /** After the first k steps every account is within the limit whatever the clock reads. */
  ghost predicate LimitAfter(limits: Limits, steps: seq<Step>, k: int)
  {
    0 <= k <= |steps| ==>
      var l := Run(EMPTY, limits, steps[..k]);
      forall a {:trigger WithinLimit(l, limits, a)} :: WithinLimit(l, limits, a)
  }

  lemma SlotsOfPrefix(limits: Limits, steps: seq<Step>, n: nat)
    requires n <= |steps| && AllHadSlots(limits, steps)
    ensures AllHadSlots(limits, steps[..n])
  {
    forall k ensures SlotAt(limits, steps[..n], k) {
      assert SlotAt(limits, steps, k);
      if 0 <= k < n { assert steps[..n][..k] == steps[..k]; }
    }
  }

  lemma {:induction false} SlotsKeepLimit(limits: Limits, steps: seq<Step>, a: Account)
    requires limits.concurrency >= 0 && AllHadSlots(limits, steps)
    ensures Count(Run(EMPTY, limits, steps).calls, ReservedOf(a)) <= limits.concurrency
  {
    if steps != [] {
      var front, step := steps[..|steps| - 1], steps[|steps| - 1];
      var l := Run(EMPTY, limits, front);
      SlotsOfPrefix(limits, steps, |steps| - 1);
      SlotsKeepLimit(limits, front, a);
      assert SlotAt(limits, steps, |steps| - 1);
      if Accepted(l, limits, step) {
        ReservedGrows(l, limits, step.user, step.model, step.tokens, step.now, step.timeout, a);
      } else {
        OtherStepsFree(l, limits, step, a);
      }
    }
  }

  lemma LimitMeansSlot(limits: Limits, steps: seq<Step>, k: int)
    requires LimitAfter(limits, steps, k + 1)
    ensures SlotAt(limits, steps, k)
  {
    if 0 <= k < |steps| && Accepted(Run(EMPTY, limits, steps[..k]), limits, steps[k]) {
      var l, step := Run(EMPTY, limits, steps[..k]), steps[k];
      assert steps[..k + 1][..k] == steps[..k] && steps[..k + 1][k] == step;
      var next := Run(EMPTY, limits, steps[..k + 1]);
      assert forall a {:trigger WithinLimit(next, limits, a)} :: WithinLimit(next, limits, a);
      ReserveKeepsLimitIff(l, limits, step.user, step.model, step.tokens, step.now, step.timeout);
    }
  }

  lemma SlotsMeanLimit(limits: Limits, steps: seq<Step>, k: int)
    requires limits.concurrency >= 0 && AllHadSlots(limits, steps)
    ensures LimitAfter(limits, steps, k)
  {
    if 0 <= k <= |steps| {
      SlotsOfPrefix(limits, steps, k);
      var l := Run(EMPTY, limits, steps[..k]);
      forall a ensures WithinLimit(l, limits, a) {
        SlotsKeepLimit(limits, steps[..k], a);
        ActiveAlwaysIff(l.calls, a, limits.concurrency);
      }
    }
  }

  /**
   Whole runs: every account stays within the concurrency limit in every state of a run and at every
   clock reading if and only if each accepted reservation found a slot in all of its scopes.
   */
  lemma LimitHoldsThroughoutIff(limits: Limits, steps: seq<Step>)
    requires limits.concurrency >= 0
    ensures (forall k {:trigger LimitAfter(limits, steps, k)} :: LimitAfter(limits, steps, k)) <==> AllHadSlots(limits, steps)
  {
    if AllHadSlots(limits, steps) {
      forall k ensures LimitAfter(limits, steps, k) { SlotsMeanLimit(limits, steps, k); }
    }
    if forall k {:trigger LimitAfter(limits, steps, k)} :: LimitAfter(limits, steps, k) {
      forall k ensures SlotAt(limits, steps, k) {
        assert LimitAfter(limits, steps, k + 1);
        LimitMeansSlot(limits, steps, k);
      }
    }
  }
}
