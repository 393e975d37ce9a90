/**
 What one transaction of the budget does to the balances and when it is refused, stated on the
 accounts and the positions of the ledger.
 */
module BudgetEffects {
  import opened Wrappers
  import opened Budget
  import opened BudgetConservation

  function Spent(l: Ledger, a: Account): int { if a in l.accounts then l.accounts[a].spent else 0 }

  function Held(l: Ledger, a: Account): int { if a in l.accounts then l.accounts[a].reserved else 0 }

  /** The positions of the calls of a scope that started less than a minute before `now`, or later. */
  function Recent(l: Ledger, a: Account, now: real): set<nat>
  {
    set i: nat | i < |l.calls| && Bills(l.calls[i], a) && now - l.calls[i].startedAt < 60.0
  }

  /** The positions of the calls of a scope that are reserved and have not expired at `now`. */
  function Unexpired(l: Ledger, a: Account, now: real): set<nat>
  {
    set i: nat | i < |l.calls| && Bills(l.calls[i], a) && l.calls[i].status == Reserved && now < l.calls[i].leaseUntil
  }

  function Positions(calls: seq<Call>, p: Call -> bool): set<nat>
  {
    set i: nat | i < |calls| && p(calls[i])
  }

  lemma {:induction false} CountIsSize(calls: seq<Call>, p: Call -> bool)
    ensures Count(calls, p) == |Positions(calls, p)|
  {
    if calls != [] {
      var front, n := calls[..|calls| - 1], |calls| - 1;
      CountIsSize(front, p);
      assert Positions(calls, p) == Positions(front, p) + if p(calls[n]) then {n} else {};
    } else {
      assert Positions(calls, p) == {};
    }
  }

  lemma RateCounts(l: Ledger, a: Account, now: real)
    ensures Count(l.calls, StartedAfter(a, now - 60.0)) == |Recent(l, a, now)|
    ensures Count(l.calls, ActiveAt(a, now)) == |Unexpired(l, a, now)|
  {
    CountIsSize(l.calls, StartedAfter(a, now - 60.0));
    CountIsSize(l.calls, ActiveAt(a, now));
    assert Positions(l.calls, StartedAfter(a, now - 60.0)) == Recent(l, a, now);
    assert Positions(l.calls, ActiveAt(a, now)) == Unexpired(l, a, now);
  }

  // ----- when a reservation is accepted -----

  predicate InBudget(l: Ledger, limits: Limits, a: Account, tokens: int)
  {
    Spent(l, a) + Held(l, a) + tokens <= limits.tokenBudget
  }

  predicate InRate(l: Ledger, limits: Limits, a: Account, now: real)
  {
    |Recent(l, a, now)| < limits.rpm && |Unexpired(l, a, now)| < limits.concurrency
  }

  lemma {:induction false} AccountsFit(accounts: map<Account, Balance>, ids: seq<Account>, tokens: int, limits: Limits)
    requires Distinct(ids)
    ensures var l := Ledger(accounts, []); var r := ReserveAccounts(accounts, ids, tokens, limits);
      && (r.Ok? <==> forall a :: a in ids ==> InBudget(l, limits, a, tokens))
      && (r.Err? ==> r.error == BudgetExceeded)
    decreases |ids|
  {
    if ids != [] {
      var next := accounts[ids[0] := WithReserved(BalanceOf(accounts, ids[0]), tokens)];
      AccountsFit(next, ids[1..], tokens, limits);
      var l, l' := Ledger(accounts, []), Ledger(next, []);
      forall a | a in ids[1..] ensures InBudget(l', limits, a, tokens) <==> InBudget(l, limits, a, tokens) {
        assert a != ids[0];
      }
      if InBudget(l, limits, ids[0], tokens) && forall a :: a in ids[1..] ==> InBudget(l', limits, a, tokens) {
        forall a | a in ids ensures InBudget(l, limits, a, tokens) { assert a == ids[0] || a in ids[1..]; }
      } else if InBudget(l, limits, ids[0], tokens) {
        var a :| a in ids[1..] && !InBudget(l', limits, a, tokens);
        assert a in ids && !InBudget(l, limits, a, tokens);
      }
    }
  }

  /** The first scope over a limit decides, and within it the calls per minute come first. */
  lemma {:induction false} RefusalIs(l: Ledger, scopes: seq<Account>, now: real, limits: Limits)
    ensures var r := RateRefusal(l.calls, scopes, now, limits);
      && (r.None? <==> forall a :: a in scopes ==> InRate(l, limits, a, now))
      && (r.Some? ==> exists k :: 0 <= k < |scopes| && RefusedAt(l, scopes, now, limits, k, r.value))
    decreases |scopes|
  {
    if scopes != [] {
      RateCounts(l, scopes[0], now);
      RefusalIs(l, scopes[1..], now, limits);
      var r := RateRefusal(l.calls, scopes, now, limits);
      assert forall a :: a in scopes <==> a == scopes[0] || a in scopes[1..];
      if !InRate(l, limits, scopes[0], now) {
        assert RefusedAt(l, scopes, now, limits, 0, r.value);
      } else if r.Some? {
        var k :| 0 <= k < |scopes[1..]| && RefusedAt(l, scopes[1..], now, limits, k, r.value);
        assert forall j :: 0 <= j < k ==> InRate(l, limits, scopes[1..][j], now);
        assert RefusedAt(l, scopes, now, limits, k + 1, r.value);
      }
    }
  }

  predicate RefusedAt(l: Ledger, scopes: seq<Account>, now: real, limits: Limits, k: nat, e: BudgetError)
    requires k < |scopes|
  {
    && (forall j :: 0 <= j < k ==> InRate(l, limits, scopes[j], now))
    && !InRate(l, limits, scopes[k], now)
    && e == if |Recent(l, scopes[k], now)| >= limits.rpm then RpmExceeded else ConcurrencyExceeded
  }

  /**
   A reservation is accepted if and only if the estimate is positive, the three accounts can carry it
   and the three scopes are below both rates; otherwise the ledger is as before, and the error is the
   first of these in that order.
   */
  lemma ReserveAcceptedIff(l: Ledger, limits: Limits, user: string, model: string, tokens: int, now: real, timeout: real)
    ensures var (l', r) := ReserveTx(l, limits, user, model, tokens, now, timeout);
      var scopes := [TenantAccount, UserAccount(user), ModelAccount(model)];
      var fits := forall a :: a in scopes ==> InBudget(l, limits, a, tokens);
      && (r.Ok? <==> tokens >= 1 && fits && forall a :: a in scopes ==> InRate(l, limits, a, now))
      && (r == Err(EstimateInvalid) <==> tokens < 1)
      && (r == Err(BudgetExceeded) <==> tokens >= 1 && !fits)
      && (r.Err? && tokens >= 1 && fits ==> exists k :: 0 <= k < 3 && RefusedAt(l, scopes, now, limits, k, r.error))
      && (r.Err? ==> l' == l)
  {
    AccountsFit(l.accounts, AccountsOf(user, model), tokens, limits);
    RefusalIs(l, ScopesOf(user, model), now, limits);
    assert forall a :: a in AccountsOf(user, model) <==> a in ScopesOf(user, model);
    assert forall a :: InBudget(Ledger(l.accounts, []), limits, a, tokens) <==> InBudget(l, limits, a, tokens);
  }

  /** One balance moves by the given amounts, and its version by one. */
  predicate Moved(l: Ledger, l': Ledger, a: Account, spent: int, held: int)
  {
    && a in l'.accounts
    && Spent(l', a) == Spent(l, a) + spent && Held(l', a) == Held(l, a) + held
    && l'.accounts[a].version == (if a in l.accounts then l.accounts[a].version else 0) + 1
  }

  predicate Untouched(l: Ledger, l': Ledger, a: Account)
  {
    (a in l'.accounts <==> a in l.accounts) && (a in l.accounts ==> l'.accounts[a] == l.accounts[a])
  }

  lemma {:induction false} ReserveAccountsMoves(accounts: map<Account, Balance>, ids: seq<Account>, tokens: int, limits: Limits, a: Account)
    requires Distinct(ids) && ReserveAccounts(accounts, ids, tokens, limits).Ok?
    ensures var l, l' := Ledger(accounts, []), Ledger(ReserveAccounts(accounts, ids, tokens, limits).value, []);
      if a in ids then Moved(l, l', a, 0, tokens) else Untouched(l, l', a)
    decreases |ids|
  {
    if ids != [] {
      ReserveAccountsMoves(accounts[ids[0] := WithReserved(BalanceOf(accounts, ids[0]), tokens)], ids[1..], tokens, limits, a);
      assert a in ids <==> a == ids[0] || a in ids[1..];
    }
  }

  /** An accepted reservation: one new call, the estimate held in its three accounts, all else as before. */
  lemma ReserveHolds(l: Ledger, limits: Limits, user: string, model: string, tokens: int, now: real, timeout: real, a: Account)
    requires ReserveTx(l, limits, user, model, tokens, now, timeout).1.Ok?
    ensures var (l', r) := ReserveTx(l, limits, user, model, tokens, now, timeout); var id := r.value;
      && id == |l.calls| && |l'.calls| == id + 1 && l'.calls[..id] == l.calls
      && l'.calls[id].user == user && l'.calls[id].model == model
      && l'.calls[id].status == Reserved && l'.calls[id].reserved == tokens && l'.calls[id].startedAt == now
      && l'.calls[id].inputTokens == l'.calls[id].outputTokens == l'.calls[id].charged == 0
      && l'.calls[id].leaseUntil - now - timeout == 5.0
      && (if Bills(l'.calls[id], a) then Moved(l, l', a, 0, tokens) else Untouched(l, l', a))
  {
    var (l', r) := ReserveTx(l, limits, user, model, tokens, now, timeout);
    ReserveAccountsMoves(l.accounts, AccountsOf(user, model), tokens, limits, a);
    BillsIsMember(l'.calls[|l.calls|], a);
  }

  // ----- settling -----

  lemma {:induction false} AdjustMoves(accounts: map<Account, Balance>, ids: seq<Account>, released: int, spent: int, a: Account)
    requires Distinct(ids) && forall x :: x in ids ==> x in accounts
    ensures var l, l' := Ledger(accounts, []), Ledger(Adjust(accounts, ids, released, spent), []);
      if a in ids then Moved(l, l', a, spent, -released) else Untouched(l, l', a)
    decreases |ids|
  {
    if ids != [] {
      var b := accounts[ids[0]];
      AdjustMoves(accounts[ids[0] := Balance(b.version + 1, b.spent + spent, b.reserved - released)], ids[1..], released, spent, a);
      assert a in ids <==> a == ids[0] || a in ids[1..];
    }
  }

  function AtLeastZero(n: int): int { if n > 0 then n else 0 }

  /**
   Settling a call that is still reserved: its three accounts give up its reservation and spend what
   it used, prompt and completion together, or the whole reservation when the usage is unknown.
   */
  lemma SettleBills(l: Ledger, limits: Limits, id: nat, usage: Option<(int, int)>, failed: bool, a: Account)
    requires Inv(l, limits) && id < |l.calls| && l.calls[id].status == Reserved
    ensures var l' := SettleTx(l, id, usage, failed); var c, c' := l.calls[id], l'.calls[id];
      var cost := if usage.Some? then AtLeastZero(usage.value.0) + AtLeastZero(usage.value.1) else c.reserved;
      && |l'.calls| == |l.calls| && (forall i :: 0 <= i < |l.calls| && i != id ==> l'.calls[i] == l.calls[i])
      && (if Bills(c, a) then Moved(l, l', a, cost, -c.reserved) else Untouched(l, l', a))
      && c'.charged == cost && c'.reserved == c.reserved && c'.user == c.user && c'.model == c.model && c'.startedAt == c.startedAt
      && c'.status == (if usage.None? then NeedsReconciliation else if failed then FailedAccounted else Settled)
      && (usage.Some? ==> c'.inputTokens == AtLeastZero(usage.value.0) && c'.outputTokens == AtLeastZero(usage.value.1))
  {
    var c := l.calls[id];
    assert CallOk(l, id);
    forall x | x in AccountsOf(c.user, c.model) ensures x in l.accounts { BillsIsMember(c, x); }
    BillsIsMember(c, a);
    AdjustMoves(l.accounts, AccountsOf(c.user, c.model), c.reserved, SettledCall(c, usage, failed).charged, a);
  }

  /** Settling anything else does nothing. */
  lemma SettleOnlyReserved(l: Ledger, id: nat, usage: Option<(int, int)>, failed: bool)
    ensures SettleTx(l, id, usage, failed) != l ==> id < |l.calls| && l.calls[id].status == Reserved
  {}

  /** A receipt is accepted exactly for a call that waits for one, and replaces its charge by its use. */
  lemma ReconcileCorrects(l: Ledger, limits: Limits, id: nat, input: int, output: int, receipt: string, a: Account)
    requires Inv(l, limits)
    ensures var (l', r) := ReconcileTx(l, id, input, output, receipt);
      && (r.Ok? <==> input >= 0 && output >= 0 && |receipt| > 0 && id < |l.calls| && l.calls[id].status == NeedsReconciliation)
      && (r == Err(ReceiptInvalid) <==> input < 0 || output < 0 || |receipt| == 0)
      && (r == Err(CallNotFound) ==> id >= |l.calls|)
      && (r == Err(AlreadySettled) ==> id < |l.calls| && l.calls[id].status != NeedsReconciliation)
      && (r.Err? ==> l' == l)
      && (r.Ok? ==>
            && |l'.calls| == |l.calls| && (forall i :: 0 <= i < |l.calls| && i != id ==> l'.calls[i] == l.calls[i])
            && l'.calls[id].status == Reconciled && l'.calls[id].inputTokens == input && l'.calls[id].outputTokens == output
            && (if Bills(l.calls[id], a) then Moved(l, l', a, input + output - l.calls[id].reserved, 0) else Untouched(l, l', a)))
  {
    if ReconcileTx(l, id, input, output, receipt).1.Ok? {
      var c := l.calls[id];
      assert CallOk(l, id);
      forall x | x in AccountsOf(c.user, c.model) ensures x in l.accounts { BillsIsMember(c, x); }
      BillsIsMember(c, a);
      AdjustMoves(l.accounts, AccountsOf(c.user, c.model), 0, input + output - c.charged, a);
    }
  }
}
