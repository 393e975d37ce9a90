/** What every run of the shared budget conserves and bounds, whatever the clock does. */
module BudgetConservation {
  import opened Wrappers
  import opened Budget

  datatype Step =
    | Reserve(user: string, model: string, tokens: int, now: real, timeout: real)
    | Settle(id: nat, usage: Option<(int, int)>, failed: bool)
    | Reconcile(id: nat, input: int, output: int, receipt: string)
    | Expire(ids: seq<nat>)

  function Do(l: Ledger, limits: Limits, step: Step): Ledger
  {
    match step
    case Reserve(user, model, tokens, now, timeout) => ReserveTx(l, limits, user, model, tokens, now, timeout).0
    case Settle(id, usage, failed) => SettleTx(l, id, usage, failed)
    case Reconcile(id, input, output, receipt) => ReconcileTx(l, id, input, output, receipt).0
    case Expire(ids) => ExpireAll(l, ids)
  }

  function Run(l: Ledger, limits: Limits, steps: seq<Step>): Ledger
  {
    if steps == [] then l else Do(Run(l, limits, steps[..|steps| - 1]), limits, steps[|steps| - 1])
  }

  const EMPTY := Ledger(map[], [])

  // ----- sums -----

  lemma {:induction false} TotalUpdate(calls: seq<Call>, i: nat, c: Call, f: Call -> int)
    requires i < |calls|
    ensures Total(calls[i := c], f) == Total(calls, f) - f(calls[i]) + f(c)
  {
    var n := |calls| - 1;
    if i == n {
      assert calls[i := c][..n] == calls[..n];
    } else {
      assert calls[i := c][..n] == calls[..n][i := c];
      TotalUpdate(calls[..n], i, c, f);
    }
  }

  lemma TotalAppend(calls: seq<Call>, c: Call, f: Call -> int)
    ensures Total(calls + [c], f) == Total(calls, f) + f(c)
  {
    assert (calls + [c])[..|calls|] == calls;
  }

  lemma {:induction false} TotalNonnegative(calls: seq<Call>, f: Call -> int)
    requires forall c :: f(c) >= 0
    ensures Total(calls, f) >= 0
  {
    if calls != [] {
      TotalNonnegative(calls[..|calls| - 1], f);
    }
  }

  lemma CountAppend(calls: seq<Call>, c: Call, p: Call -> bool)
    ensures Count(calls + [c], p) == Count(calls, p) + if p(c) then 1 else 0
  {
    assert (calls + [c])[..|calls|] == calls;
  }

  lemma {:induction false} CountWeaker(calls: seq<Call>, p: Call -> bool, q: Call -> bool)
    requires forall c :: p(c) ==> q(c)
    ensures Count(calls, p) <= Count(calls, q)
  {
    if calls != [] {
      CountWeaker(calls[..|calls| - 1], p, q);
    }
  }

  lemma {:induction false} CountUpdate(calls: seq<Call>, i: nat, c: Call, p: Call -> bool)
    requires i < |calls|
    ensures Count(calls[i := c], p) == Count(calls, p) - (if p(calls[i]) then 1 else 0) + (if p(c) then 1 else 0)
  {
    var n := |calls| - 1;
    if i == n {
      assert calls[i := c][..n] == calls[..n];
    } else {
      assert calls[i := c][..n] == calls[..n][i := c];
      CountUpdate(calls[..n], i, c, p);
    }
  }

  // ----- the ledger invariant -----

  /** Once a call is accounted for, it is charged what it used; without a count, what it reserved. */
  predicate ChargeOk(c: Call)
  {
    match c.status
    case Reserved => c.inputTokens == 0 && c.outputTokens == 0
    case NeedsReconciliation => c.charged == c.reserved && c.inputTokens == 0 && c.outputTokens == 0
    case _ => c.charged == c.inputTokens + c.outputTokens && c.inputTokens >= 0 && c.outputTokens >= 0
  }

  ghost predicate CallOk(l: Ledger, i: nat)
    requires i < |l.calls|
  {
    && l.calls[i].reserved >= 1
    && ChargeOk(l.calls[i])
    && (l.calls[i].status != Reserved ==> l.calls[i].leaseUntil == 0.0)
    && (forall a :: Bills(l.calls[i], a) ==> a in l.accounts)
  }

  /** Reserved and spent are the sums over the calls that bill the account. */
  ghost predicate BalanceOk(l: Ledger, limits: Limits, a: Account)
  {
    var b := BalanceOf(l.accounts, a);
    && b.reserved == Total(l.calls, Holding(a))
    && b.spent == Total(l.calls, Charge(a))
    && (a in l.accounts ==> b.spent + b.reserved <= limits.tokenBudget + Total(l.calls, Overrun(a)))
  }

  ghost predicate Inv(l: Ledger, limits: Limits)
  {
    && (forall i :: 0 <= i < |l.calls| ==> CallOk(l, i))
    && (forall a {:trigger BalanceOk(l, limits, a)} :: BalanceOk(l, limits, a))
  }

  ghost predicate Distinct(ids: seq<Account>)
  {
    forall i, j :: 0 <= i < j < |ids| ==> ids[i] != ids[j]
  }

  lemma {:induction false} AdjustAt(accounts: map<Account, Balance>, ids: seq<Account>, released: int, spent: int, a: Account)
    requires Distinct(ids) && forall x :: x in ids ==> x in accounts
    ensures var after := Adjust(accounts, ids, released, spent);
      && after.Keys == accounts.Keys
      && (a in accounts ==>
            && after[a].spent == accounts[a].spent + (if a in ids then spent else 0)
            && after[a].reserved == accounts[a].reserved - (if a in ids then released else 0))
    decreases |ids|
  {
    if ids != [] {
      var b := accounts[ids[0]];
      AdjustAt(accounts[ids[0] := Balance(b.version + 1, b.spent + spent, b.reserved - released)], ids[1..], released, spent, a);
    }
  }

  lemma BillsIsMember(c: Call, a: Account)
    ensures Bills(c, a) <==> a in AccountsOf(c.user, c.model)
  {}

  /** Replacing one call and adjusting its three accounts by the difference keeps the books. */
  lemma ReplaceKeeps(l: Ledger, limits: Limits, i: nat, c: Call, released: int, spent: int)
    requires Inv(l, limits) && i < |l.calls|
    requires c.user == l.calls[i].user && c.model == l.calls[i].model && c.reserved == l.calls[i].reserved
    requires c.status != Reserved && ChargeOk(c) && c.leaseUntil == 0.0
    requires released == (if l.calls[i].status == Reserved then c.reserved else 0)
    requires spent == c.charged - (if l.calls[i].status == Reserved then 0 else l.calls[i].charged)
    requires l.calls[i].status == Reserved || l.calls[i].charged <= l.calls[i].reserved
    requires l.calls[i].status == Reserved || l.calls[i].charged == l.calls[i].reserved
    ensures Inv(Ledger(Adjust(l.accounts, AccountsOf(c.user, c.model), released, spent), l.calls[i := c]), limits)
  {
    var l' := Ledger(Adjust(l.accounts, AccountsOf(c.user, c.model), released, spent), l.calls[i := c]);
    var old_ := l.calls[i];
    assert CallOk(l, i);
    forall x | x in AccountsOf(c.user, c.model) ensures x in l.accounts { BillsIsMember(old_, x); }
    forall a ensures BalanceOk(l', limits, a) {
      assert BalanceOk(l, limits, a);
      BillsIsMember(c, a);
      AdjustAt(l.accounts, AccountsOf(c.user, c.model), released, spent, a);
      TotalUpdate(l.calls, i, c, Holding(a));
      TotalUpdate(l.calls, i, c, Charge(a));
      TotalUpdate(l.calls, i, c, Overrun(a));
    }
    AdjustAt(l.accounts, AccountsOf(c.user, c.model), released, spent, TenantAccount);
    forall j | 0 <= j < |l'.calls| ensures CallOk(l', j) {
      assert CallOk(l, j);
    }
  }

  lemma SettleKeeps(l: Ledger, limits: Limits, id: nat, usage: Option<(int, int)>, failed: bool)
    requires Inv(l, limits)
    ensures Inv(SettleTx(l, id, usage, failed), limits)
  {
    if id < |l.calls| && l.calls[id].status == Reserved {
      var c := SettledCall(l.calls[id], usage, failed);
      ReplaceKeeps(l, limits, id, c, c.reserved, c.charged);
    }
  }

  lemma ReconcileKeeps(l: Ledger, limits: Limits, id: nat, input: int, output: int, receipt: string)
    requires Inv(l, limits)
    ensures Inv(ReconcileTx(l, id, input, output, receipt).0, limits)
  {
    if ReconcileTx(l, id, input, output, receipt).1.Ok? {
      var c := l.calls[id].(status := Reconciled, inputTokens := input, outputTokens := output, charged := input + output);
      assert CallOk(l, id);
      ReplaceKeeps(l, limits, id, c, 0, input + output - l.calls[id].charged);
    }
  }

  lemma {:induction false} ReserveAccountsAt(accounts: map<Account, Balance>, ids: seq<Account>, tokens: int, limits: Limits, a: Account)
    requires Distinct(ids)
    requires ReserveAccounts(accounts, ids, tokens, limits).Ok?
    ensures var after := ReserveAccounts(accounts, ids, tokens, limits).value;
      && (a in ids ==>
            && a in after
            && after[a] == WithReserved(BalanceOf(accounts, a), tokens)
            && after[a].spent + after[a].reserved <= limits.tokenBudget)
      && (a !in ids ==> BalanceOf(after, a) == BalanceOf(accounts, a) && (a in after <==> a in accounts))
    decreases |ids|
  {
    if ids != [] {
      ReserveAccountsAt(accounts[ids[0] := WithReserved(BalanceOf(accounts, ids[0]), tokens)], ids[1..], tokens, limits, a);
    }
  }

  lemma ReserveKeeps(l: Ledger, limits: Limits, user: string, model: string, tokens: int, now: real, timeout: real)
    requires Inv(l, limits)
    ensures Inv(ReserveTx(l, limits, user, model, tokens, now, timeout).0, limits)
  {
    var l' := ReserveTx(l, limits, user, model, tokens, now, timeout).0;
    if l' != l {
      var c := NewCall(user, model, tokens, now, timeout);
      forall a ensures BalanceOk(l', limits, a) {
        assert BalanceOk(l, limits, a);
        BillsIsMember(c, a);
        ReserveAccountsAt(l.accounts, AccountsOf(user, model), tokens, limits, a);
        TotalAppend(l.calls, c, Holding(a));
        TotalAppend(l.calls, c, Charge(a));
        TotalAppend(l.calls, c, Overrun(a));
        TotalNonnegative(l.calls, Overrun(a));
      }
      forall i | 0 <= i < |l'.calls| ensures CallOk(l', i) {
        forall a | Bills(l'.calls[i], a) ensures a in l'.accounts {
          ReserveAccountsAt(l.accounts, AccountsOf(user, model), tokens, limits, a);
          if i < |l.calls| { assert CallOk(l, i); } else { BillsIsMember(c, a); }
        }
        if i < |l.calls| { assert CallOk(l, i); }
      }
    }
  }

  lemma {:induction false} ExpireKeeps(l: Ledger, limits: Limits, ids: seq<nat>)
    requires Inv(l, limits)
    ensures Inv(ExpireAll(l, ids), limits)
    decreases |ids|
  {
    if ids != [] {
      SettleKeeps(l, limits, ids[0], None, false);
      ExpireKeeps(SettleTx(l, ids[0], None, false), limits, ids[1..]);
    }
  }

  lemma {:induction false} RunInv(limits: Limits, steps: seq<Step>)
    ensures Inv(Run(EMPTY, limits, steps), limits)
  {
    if steps == [] {
      forall a ensures BalanceOk(EMPTY, limits, a) {}
    } else {
      var l := Run(EMPTY, limits, steps[..|steps| - 1]);
      RunInv(limits, steps[..|steps| - 1]);
      match steps[|steps| - 1]
      case Reserve(user, model, tokens, now, timeout) => ReserveKeeps(l, limits, user, model, tokens, now, timeout);
      case Settle(id, usage, failed) => SettleKeeps(l, limits, id, usage, failed);
      case Reconcile(id, input, output, receipt) => ReconcileKeeps(l, limits, id, input, output, receipt);
      case Expire(ids) => ExpireKeeps(l, limits, ids);
    }
  }

  /** In every reachable ledger each account is exactly the sum of its calls, and bounded. */
  lemma BooksBalance(limits: Limits, steps: seq<Step>, a: Account)
    ensures var l := Run(EMPTY, limits, steps); var b := BalanceOf(l.accounts, a);
      && b.reserved == Total(l.calls, Holding(a))
      && b.spent == Total(l.calls, Charge(a))
      && (a in l.accounts ==> b.spent + b.reserved <= limits.tokenBudget + Total(l.calls, Overrun(a)))
  {
    RunInv(limits, steps);
    assert BalanceOk(Run(EMPTY, limits, steps), limits, a);
  }

  /**
   In every reachable ledger a call is charged the tokens it used, input and output, as soon as they
   are known; a call whose usage is unknown is charged its reservation.
   */
  lemma ChargedForUse(limits: Limits, steps: seq<Step>, id: nat)
    requires id < |Run(EMPTY, limits, steps).calls|
    ensures var c := Run(EMPTY, limits, steps).calls[id];
      && (c.status in {Settled, FailedAccounted, Reconciled} ==>
            c.charged == c.inputTokens + c.outputTokens && c.inputTokens >= 0 && c.outputTokens >= 0)
      && (c.status == NeedsReconciliation ==> c.charged == c.reserved && c.inputTokens == c.outputTokens == 0)
      && (c.status != Reserved ==> c.leaseUntil == 0.0)
  {
    RunInv(limits, steps);
    assert CallOk(Run(EMPTY, limits, steps), id);
  }

  // ----- the tenant account is the sum of the users and of the models -----

  function SumOver(ids: seq<Account>, f: Account -> int): int
  {
    if ids == [] then 0 else f(ids[0]) + SumOver(ids[1..], f)
  }

  ghost predicate OwnPart(c: Call, part: seq<Account>, a: Account)
  {
    a in part && Bills(c, a) && forall b :: b in part && Bills(c, b) ==> b == a
  }

  /** `part` lists one account for every call: all users, or all models. */
  ghost predicate Partitions(calls: seq<Call>, part: seq<Account>)
  {
    && Distinct(part)
    && (forall c :: c in calls ==> exists a :: OwnPart(c, part, a))
  }

  lemma {:induction false} SumSplit(ids: seq<Account>, f: Account -> int, g: Account -> int, h: Account -> int)
    requires forall a :: a in ids ==> f(a) == g(a) + h(a)
    ensures SumOver(ids, f) == SumOver(ids, g) + SumOver(ids, h)
  {
    if ids != [] {
      SumSplit(ids[1..], f, g, h);
    }
  }

  lemma {:induction false} SumZero(ids: seq<Account>, f: Account -> int)
    requires forall a :: a in ids ==> f(a) == 0
    ensures SumOver(ids, f) == 0
  {
    if ids != [] {
      SumZero(ids[1..], f);
    }
  }

  lemma {:induction false} SumPoint(ids: seq<Account>, f: Account -> int, x: Account)
    requires Distinct(ids) && x in ids
    requires forall a :: a in ids && a != x ==> f(a) == 0
    ensures SumOver(ids, f) == f(x)
  {
    if ids[0] == x {
      SumZero(ids[1..], f);
    } else {
      SumPoint(ids[1..], f, x);
    }
  }

  lemma {:induction false} SumCongruent(ids: seq<Account>, f: Account -> int, g: Account -> int)
    requires forall a :: a in ids ==> f(a) == g(a)
    ensures SumOver(ids, f) == SumOver(ids, g)
  {
    if ids != [] {
      SumCongruent(ids[1..], f, g);
    }
  }

  function TotalsOf(calls: seq<Call>, measure: Account -> Call -> int): Account -> int
  {
    (a: Account) => Total(calls, measure(a))
  }

  /** Summing a per-call measure over a partition gives the tenant's total. */
  lemma {:induction false} TotalsAddUp(calls: seq<Call>, part: seq<Account>, measure: Account -> Call -> int)
    requires Partitions(calls, part)
    requires forall a, c :: !Bills(c, a) ==> measure(a)(c) == 0
    requires forall a, c :: Bills(c, a) ==> measure(a)(c) == measure(TenantAccount)(c)
    ensures SumOver(part, TotalsOf(calls, measure)) == Total(calls, measure(TenantAccount))
  {
    if calls == [] {
      SumZero(part, TotalsOf(calls, measure));
    } else {
      var front, c := calls[..|calls| - 1], calls[|calls| - 1];
      assert c in calls && forall x :: x in front ==> x in calls;
      TotalsAddUp(front, part, measure);
      var last := (a: Account) => measure(a)(c);
      SumSplit(part, TotalsOf(calls, measure), TotalsOf(front, measure), last);
      var x :| OwnPart(c, part, x);
      SumPoint(part, last, x);
    }
  }

  function ReservedIn(l: Ledger): Account -> int
  {
    (a: Account) => BalanceOf(l.accounts, a).reserved
  }

  function SpentIn(l: Ledger): Account -> int
  {
    (a: Account) => BalanceOf(l.accounts, a).spent
  }

  /** The tenant's reserved and spent tokens are the users' sums, and likewise the models'. */
  lemma TenantIsTheSum(limits: Limits, steps: seq<Step>, part: seq<Account>)
    requires Partitions(Run(EMPTY, limits, steps).calls, part)
    ensures var l := Run(EMPTY, limits, steps);
      && SumOver(part, ReservedIn(l)) == BalanceOf(l.accounts, TenantAccount).reserved
      && SumOver(part, SpentIn(l)) == BalanceOf(l.accounts, TenantAccount).spent
  {
    var l := Run(EMPTY, limits, steps);
    RunInv(limits, steps);
    forall a ensures ReservedIn(l)(a) == TotalsOf(l.calls, Holding)(a) && SpentIn(l)(a) == TotalsOf(l.calls, Charge)(a) {
      assert BalanceOk(l, limits, a);
    }
    assert BalanceOk(l, limits, TenantAccount);
    TotalsAddUp(l.calls, part, Holding);
    TotalsAddUp(l.calls, part, Charge);
    SumCongruent(part, ReservedIn(l), TotalsOf(l.calls, Holding));
    SumCongruent(part, SpentIn(l), TotalsOf(l.calls, Charge));
  }

  // ----- a call is charged once -----

  lemma {:induction false} ExpireLeavesSettled(l: Ledger, ids: seq<nat>, id: nat)
    requires id < |l.calls| && l.calls[id].status != Reserved
    ensures id < |ExpireAll(l, ids).calls| && ExpireAll(l, ids).calls[id] == l.calls[id]
    decreases |ids|
  {
    if ids != [] {
      ExpireLeavesSettled(SettleTx(l, ids[0], None, false), ids[1..], id);
    }
  }

  /** The one way in which a call that is no longer reserved can still change. */
  predicate Corrects(l: Ledger, step: Step, id: nat)
  {
    step.Reconcile? && step.id == id && id < |l.calls| && l.calls[id].status == NeedsReconciliation
  }

  lemma StepLeavesSettled(l: Ledger, limits: Limits, step: Step, id: nat)
    requires id < |l.calls| && l.calls[id].status != Reserved
    ensures id < |Do(l, limits, step).calls|
    ensures !Corrects(l, step, id) ==> Do(l, limits, step).calls[id] == l.calls[id]
    ensures Do(l, limits, step).calls[id] == l.calls[id] || Do(l, limits, step).calls[id].status == Reconciled
  {
    if step.Expire? {
      ExpireLeavesSettled(l, step.ids, id);
    }
  }

  /**
   A call is charged once: after it stopped being reserved, no settlement and no expiry of any run
   changes it. Only a reconciliation under its own id can, only while it waits for one, and then
   never again.
   */
  lemma {:induction false} ChargedOnce(l: Ledger, limits: Limits, steps: seq<Step>, id: nat)
    requires id < |l.calls| && l.calls[id].status != Reserved
    ensures var end := Run(l, limits, steps);
      && id < |end.calls|
      && (l.calls[id].status != NeedsReconciliation ==> end.calls[id] == l.calls[id])
      && ((forall k :: 0 <= k < |steps| && steps[k].Reconcile? ==> steps[k].id != id) ==> end.calls[id] == l.calls[id])
      && (end.calls[id] == l.calls[id] || end.calls[id].status == Reconciled)
  {
    if steps != [] {
      var front, step := steps[..|steps| - 1], steps[|steps| - 1];
      ChargedOnce(l, limits, front, id);
      StepLeavesSettled(Run(l, limits, front), limits, step, id);
      assert forall k :: 0 <= k < |front| ==> front[k] == steps[k];
    }
  }

  // ----- rate bounds -----

  ghost predicate WindowsOk(l: Ledger, limits: Limits)
  {
    forall a, t {:trigger Count(l.calls, StartedWithin(a, t))} ::
      limits.rpm >= 0 ==> Count(l.calls, StartedWithin(a, t)) <= limits.rpm
  }

  lemma SettleSameStarts(l: Ledger, id: nat, usage: Option<(int, int)>, failed: bool, a: Account, t: real)
    ensures Count(SettleTx(l, id, usage, failed).calls, StartedWithin(a, t)) == Count(l.calls, StartedWithin(a, t))
  {
    if id < |l.calls| && l.calls[id].status == Reserved {
      CountUpdate(l.calls, id, SettledCall(l.calls[id], usage, failed), StartedWithin(a, t));
    }
  }

  lemma {:induction false} ExpireSameStarts(l: Ledger, ids: seq<nat>, a: Account, t: real)
    ensures Count(ExpireAll(l, ids).calls, StartedWithin(a, t)) == Count(l.calls, StartedWithin(a, t))
    decreases |ids|
  {
    if ids != [] {
      SettleSameStarts(l, ids[0], None, false, a, t);
      ExpireSameStarts(SettleTx(l, ids[0], None, false), ids[1..], a, t);
    }
  }

  lemma {:induction false} ScopesChecked(calls: seq<Call>, scopes: seq<Account>, now: real, limits: Limits, a: Account)
    requires RateRefusal(calls, scopes, now, limits).None?
    requires a in scopes
    ensures Count(calls, StartedAfter(a, now - 60.0)) < limits.rpm
    ensures Count(calls, ActiveAt(a, now)) < limits.concurrency
  {
    if a != scopes[0] {
      ScopesChecked(calls, scopes[1..], now, limits, a);
    }
  }

  lemma BillsIsScope(c: Call, a: Account)
    ensures Bills(c, a) <==> a in ScopesOf(c.user, c.model)
  {}

  /** A reservation at reading `now` cannot overfill any window, past or future. */
  lemma ReserveWindow(l: Ledger, limits: Limits, user: string, model: string, tokens: int, now: real, timeout: real, a: Account, t: real)
    requires limits.rpm >= 0 ==> Count(l.calls, StartedWithin(a, t)) <= limits.rpm
    ensures limits.rpm >= 0 ==>
      Count(ReserveTx(l, limits, user, model, tokens, now, timeout).0.calls, StartedWithin(a, t)) <= limits.rpm
  {
    var l' := ReserveTx(l, limits, user, model, tokens, now, timeout).0;
    if l' != l {
      var c := NewCall(user, model, tokens, now, timeout);
      CountAppend(l.calls, c, StartedWithin(a, t));
      if StartedWithin(a, t)(c) {
        BillsIsScope(c, a);
        ScopesChecked(l.calls, ScopesOf(user, model), now, limits, a);
        CountWeaker(l.calls, StartedWithin(a, t), StartedAfter(a, now - 60.0));
      }
    }
  }

  /**
   Requests per minute: at no point of any run does any 60-second window hold more than `rpm`
   calls of a scope, even though the readings of the clock are arbitrary.
   */
  lemma {:induction false} RpmBound(limits: Limits, steps: seq<Step>, a: Account, t: real)
    requires limits.rpm >= 0
    ensures Count(Run(EMPTY, limits, steps).calls, StartedWithin(a, t)) <= limits.rpm
  {
    if steps != [] {
      var front := steps[..|steps| - 1];
      var l := Run(EMPTY, limits, front);
      RpmBound(limits, front, a, t);
      match steps[|steps| - 1]
      case Reserve(user, model, tokens, now, timeout) => ReserveWindow(l, limits, user, model, tokens, now, timeout, a, t);
      case Settle(id, usage, failed) => SettleSameStarts(l, id, usage, failed, a, t);
      case Reconcile(id, input, output, receipt) =>
        if id < |l.calls| {
          CountUpdate(l.calls, id, l.calls[id].(status := Reconciled, inputTokens := input, outputTokens := output,
            charged := input + output), StartedWithin(a, t));
        }
      case Expire(ids) => ExpireSameStarts(l, ids, a, t);
    }
  }

  /** `t` is not earlier than any clock reading at which a reservation was made. */
  ghost predicate NotBefore(t: real, steps: seq<Step>)
  {
    forall i :: 0 <= i < |steps| && steps[i].Reserve? ==> steps[i].now <= t
  }

  lemma SettleFewerActive(l: Ledger, id: nat, usage: Option<(int, int)>, failed: bool, a: Account, t: real)
    ensures Count(SettleTx(l, id, usage, failed).calls, ActiveAt(a, t)) <= Count(l.calls, ActiveAt(a, t))
  {
    if id < |l.calls| && l.calls[id].status == Reserved {
      CountUpdate(l.calls, id, SettledCall(l.calls[id], usage, failed), ActiveAt(a, t));
    }
  }

  lemma {:induction false} ExpireFewerActive(l: Ledger, ids: seq<nat>, a: Account, t: real)
    ensures Count(ExpireAll(l, ids).calls, ActiveAt(a, t)) <= Count(l.calls, ActiveAt(a, t))
    decreases |ids|
  {
    if ids != [] {
      SettleFewerActive(l, ids[0], None, false, a, t);
      ExpireFewerActive(SettleTx(l, ids[0], None, false), ids[1..], a, t);
    }
  }

  lemma ReserveActive(l: Ledger, limits: Limits, user: string, model: string, tokens: int, now: real, timeout: real, a: Account, t: real)
    requires now <= t
    requires Count(l.calls, ActiveAt(a, t)) <= limits.concurrency
    ensures Count(ReserveTx(l, limits, user, model, tokens, now, timeout).0.calls, ActiveAt(a, t)) <= limits.concurrency
  {
    var l' := ReserveTx(l, limits, user, model, tokens, now, timeout).0;
    if l' != l {
      var c := NewCall(user, model, tokens, now, timeout);
      CountAppend(l.calls, c, ActiveAt(a, t));
      if ActiveAt(a, t)(c) {
        BillsIsScope(c, a);
        ScopesChecked(l.calls, ScopesOf(user, model), now, limits, a);
        CountWeaker(l.calls, ActiveAt(a, t), ActiveAt(a, now));
      }
    }
  }

  /**
   Concurrency: at any time not earlier than the reservations' clock readings, in particular now
   when the clock never runs backwards, at most `concurrency` reserved calls are unexpired.
   */
  lemma {:induction false} ConcurrencyBound(limits: Limits, steps: seq<Step>, a: Account, t: real)
    requires limits.concurrency >= 0 && NotBefore(t, steps)
    ensures Count(Run(EMPTY, limits, steps).calls, ActiveAt(a, t)) <= limits.concurrency
  {
    if steps != [] {
      var front := steps[..|steps| - 1];
      var l := Run(EMPTY, limits, front);
      ConcurrencyBound(limits, front, a, t);
      match steps[|steps| - 1]
      case Reserve(user, model, tokens, now, timeout) => ReserveActive(l, limits, user, model, tokens, now, timeout, a, t);
      case Settle(id, usage, failed) => SettleFewerActive(l, id, usage, failed, a, t);
      case Reconcile(id, input, output, receipt) =>
        if id < |l.calls| {
          CountUpdate(l.calls, id, l.calls[id].(status := Reconciled, inputTokens := input, outputTokens := output,
            charged := input + output), ActiveAt(a, t));
        }
      case Expire(ids) => ExpireFewerActive(l, ids, a, t);
    }
  }

  /** All three accounts accept one more token and nothing else changes. */
  lemma SmallAccounts(accounts: map<Account, Balance>, limits: Limits)
    requires limits.tokenBudget == 1000
    requires forall a :: a in AccountsOf("u", "m") ==> BalanceOf(accounts, a).spent + BalanceOf(accounts, a).reserved <= 1
    ensures var r := ReserveAccounts(accounts, AccountsOf("u", "m"), 1, limits);
      r.Ok? && forall a :: a in AccountsOf("u", "m") ==> BalanceOf(r.value, a) == WithReserved(BalanceOf(accounts, a), 1)
  {
    var m, t, u := ModelAccount("m"), TenantAccount, UserAccount("u");
    assert AccountsOf("u", "m") == [m, t, u];
    var a1 := accounts[m := WithReserved(BalanceOf(accounts, m), 1)];
    var a2 := a1[t := WithReserved(BalanceOf(accounts, t), 1)];
    var a3 := a2[u := WithReserved(BalanceOf(accounts, u), 1)];
    assert ReserveAccounts(a3, [], 1, limits) == Ok(a3);
    assert [u][1..] == [];
    assert ReserveAccounts(a2, [u], 1, limits) == Ok(a3);
    assert [t, u][1..] == [u];
    assert ReserveAccounts(a1, [t, u], 1, limits) == Ok(a3);
    assert [m, t, u][1..] == [t, u];
  }

  predicate HasRoom(calls: seq<Call>, a: Account, now: real, limits: Limits)
  {
    Count(calls, StartedAfter(a, now - 60.0)) < limits.rpm && Count(calls, ActiveAt(a, now)) < limits.concurrency
  }

  lemma {:induction false} RatesAllow(calls: seq<Call>, scopes: seq<Account>, now: real, limits: Limits)
    requires forall a :: a in scopes ==> HasRoom(calls, a, now, limits)
    ensures RateRefusal(calls, scopes, now, limits).None?
    decreases |scopes|
  {
    if scopes != [] {
      assert HasRoom(calls, scopes[0], now, limits);
      RatesAllow(calls, scopes[1..], now, limits);
    }
  }

  /**
   The clock condition is needed: a reservation made after a jump forward finds an older call
   expired, and once the clock is back before that expiry both count as active under a limit of one.
   */
  lemma BackwardClockOverbooks(a: Account)
    requires a in AccountsOf("u", "m")
    ensures var limits := Limits(1000, 10, 1);
      var first := ReserveTx(EMPTY, limits, "u", "m", 1, 0.0, 30.0);
      var second := ReserveTx(first.0, limits, "u", "m", 1, 100.0, 30.0);
      first.1.Ok? && second.1.Ok? && Count(second.0.calls, ActiveAt(a, 10.0)) == 2
  {
    var limits := Limits(1000, 10, 1);
    var c, d := NewCall("u", "m", 1, 0.0, 30.0), NewCall("u", "m", 1, 100.0, 30.0);
    SmallAccounts(map[], limits);
    assert forall b :: HasRoom([], b, 0.0, limits);
    RatesAllow([], ScopesOf("u", "m"), 0.0, limits);
    var first := ReserveTx(EMPTY, limits, "u", "m", 1, 0.0, 30.0).0;
    assert first.calls == [c];
    forall b ensures HasRoom([c], b, 100.0, limits) {
      CountAppend([], c, StartedAfter(b, 40.0));
      CountAppend([], c, ActiveAt(b, 100.0));
      assert [] + [c] == [c];
    }
    SmallAccounts(first.accounts, limits);
    RatesAllow([c], ScopesOf("u", "m"), 100.0, limits);
    BillsIsMember(c, a);
    BillsIsMember(d, a);
    CountAppend([], c, ActiveAt(a, 10.0));
    CountAppend([c], d, ActiveAt(a, 10.0));
    assert [] + [c] == [c];
  }
}
