/**
 The shared token budget of app/platform/budget.py: three overlapping accounts per call, a ledger
 of calls, settlement, reconciliation, expiry and the two rate checks made while reserving.

 The ledger is a sequence in insertion order and a call id is its position; one tenant is modelled.
 */
module Budget {
  import opened Wrappers

  datatype Account = ModelAccount(model: string) | TenantAccount | UserAccount(user: string)

  /** One row of quota_accounts. */
  datatype Balance = Balance(version: nat, spent: int, reserved: int)

  datatype CallStatus = Reserved | Settled | FailedAccounted | NeedsReconciliation | Reconciled

  /** `charged` is the charged_tokens entry of the stored cost, meaningful once no longer reserved. */
  datatype Call = Call(
    user: string,
    model: string,
    status: CallStatus,
    reserved: int,
    inputTokens: int,
    outputTokens: int,
    charged: int,
    startedAt: real,
    leaseUntil: real)

  datatype Ledger = Ledger(accounts: map<Account, Balance>, calls: seq<Call>)

  datatype Limits = Limits(tokenBudget: int, rpm: int, concurrency: int)

  datatype BudgetError =
    | EstimateInvalid | BudgetExceeded | RpmExceeded | ConcurrencyExceeded | Contention
    | ReceiptInvalid | CallNotFound | AlreadySettled

  /** The accounts a call bills, in the order in which the sorted ids are locked. */
  function AccountsOf(user: string, model: string): seq<Account>
  {
    [ModelAccount(model), TenantAccount, UserAccount(user)]
  }

  /** A call is in the scope of an account exactly when it bills it. */
  predicate Bills(c: Call, a: Account)
  {
    match a
    case TenantAccount => true
    case UserAccount(u) => c.user == u
    case ModelAccount(m) => c.model == m
  }

  function BalanceOf(accounts: map<Account, Balance>, a: Account): Balance
  {
    if a in accounts then accounts[a] else Balance(0, 0, 0)
  }

  // ----- sums and counts over the ledger -----

  function Total(calls: seq<Call>, f: Call -> int): int
  {
    if calls == [] then 0 else Total(calls[..|calls| - 1], f) + f(calls[|calls| - 1])
  }

  function Count(calls: seq<Call>, p: Call -> bool): nat
  {
    if calls == [] then 0
    else Count(calls[..|calls| - 1], p) + if p(calls[|calls| - 1]) then 1 else 0
  }

  function Holding(a: Account): Call -> int
  {
    (c: Call) => if Bills(c, a) && c.status == Reserved then c.reserved else 0
  }

  function Charge(a: Account): Call -> int
  {
    (c: Call) => if Bills(c, a) && c.status != Reserved then c.charged else 0
  }

  /** How much more than its reservation a call actually used. */
  function Overrun(a: Account): Call -> int
  {
    (c: Call) => if Bills(c, a) && c.status != Reserved && c.charged > c.reserved then c.charged - c.reserved else 0
  }

  function StartedAfter(a: Account, t: real): Call -> bool
  {
    (c: Call) => Bills(c, a) && c.startedAt > t
  }

  function StartedWithin(a: Account, t: real): Call -> bool
  {
    (c: Call) => Bills(c, a) && t - 60.0 < c.startedAt <= t
  }

  function ActiveAt(a: Account, t: real): Call -> bool
  {
    (c: Call) => Bills(c, a) && c.status == Reserved && c.leaseUntil > t
  }

  // ----- transactions -----

  function WithReserved(b: Balance, tokens: int): Balance
  {
    b.(version := b.version + 1, reserved := b.reserved + tokens)
  }

  /** The account loop of `reserve`; nothing is kept when a later account refuses. */
  function ReserveAccounts(accounts: map<Account, Balance>, ids: seq<Account>, tokens: int, limits: Limits)
    : Result<map<Account, Balance>, BudgetError>
    decreases |ids|
  {
    if ids == [] then Ok(accounts)
    else
      var b := BalanceOf(accounts, ids[0]);
      if b.spent + b.reserved + tokens > limits.tokenBudget then Err(BudgetExceeded)
      else ReserveAccounts(accounts[ids[0] := WithReserved(b, tokens)], ids[1..], tokens, limits)
  }

  /** The tenant, user and model checks, in the code's order. */
  function RateRefusal(calls: seq<Call>, scopes: seq<Account>, now: real, limits: Limits): Option<BudgetError>
  {
    if scopes == [] then None
    else if Count(calls, StartedAfter(scopes[0], now - 60.0)) >= limits.rpm then Some(RpmExceeded)
    else if Count(calls, ActiveAt(scopes[0], now)) >= limits.concurrency then Some(ConcurrencyExceeded)
    else RateRefusal(calls, scopes[1..], now, limits)
  }

  function ScopesOf(user: string, model: string): seq<Account>
  {
    [TenantAccount, UserAccount(user), ModelAccount(model)]
  }

  function NewCall(user: string, model: string, tokens: int, now: real, timeout: real): Call
  {
    Call(user, model, Reserved, tokens, 0, 0, 0, now, now + timeout + 5.0)
  }

  function ReserveTx(l: Ledger, limits: Limits, user: string, model: string, tokens: int, now: real, timeout: real)
    : (Ledger, Result<nat, BudgetError>)
  {
    if tokens < 1 then (l, Err(EstimateInvalid))
    else
      match ReserveAccounts(l.accounts, AccountsOf(user, model), tokens, limits)
      case Err(e) => (l, Err(e))
      case Ok(accounts) =>
        match RateRefusal(l.calls, ScopesOf(user, model), now, limits)
        case Some(e) => (l, Err(e))
        case None => (Ledger(accounts, l.calls + [NewCall(user, model, tokens, now, timeout)]), Ok(|l.calls|))
  }

  function Max0(n: int): nat { if n < 0 then 0 else n }

  /** `usage` is the provider's (prompt, completion) count when it reported integers. */
  function SettledCall(c: Call, usage: Option<(int, int)>, failed: bool): Call
  {
    match usage
    case Some((prompt, completion)) =>
      c.(status := if failed then FailedAccounted else Settled, inputTokens := Max0(prompt),
         outputTokens := Max0(completion), charged := Max0(prompt) + Max0(completion), leaseUntil := 0.0)
    case None =>
      c.(status := NeedsReconciliation, inputTokens := 0, outputTokens := 0, charged := c.reserved, leaseUntil := 0.0)
  }

  /** The update of every account of a call: reserved goes down, spent up. */
  function Adjust(accounts: map<Account, Balance>, ids: seq<Account>, released: int, spent: int): map<Account, Balance>
    decreases |ids|
  {
    if ids == [] then accounts
    else if ids[0] !in accounts then Adjust(accounts, ids[1..], released, spent)
    else
      var b := accounts[ids[0]];
      Adjust(accounts[ids[0] := Balance(b.version + 1, b.spent + spent, b.reserved - released)], ids[1..], released, spent)
  }

  function SettleTx(l: Ledger, id: nat, usage: Option<(int, int)>, failed: bool): Ledger
  {
    if id >= |l.calls| || l.calls[id].status != Reserved then l
    else
      var c := SettledCall(l.calls[id], usage, failed);
      Ledger(Adjust(l.accounts, AccountsOf(c.user, c.model), c.reserved, c.charged), l.calls[id := c])
  }

  function ReconcileTx(l: Ledger, id: nat, input: int, output: int, receipt: string): (Ledger, Result<(), BudgetError>)
  {
    if input < 0 || output < 0 || receipt == "" then (l, Err(ReceiptInvalid))
    else if id >= |l.calls| then (l, Err(CallNotFound))
    else if l.calls[id].status != NeedsReconciliation then (l, Err(AlreadySettled))
    else
      var c := l.calls[id].(status := Reconciled, inputTokens := input, outputTokens := output, charged := input + output);
      (Ledger(Adjust(l.accounts, AccountsOf(c.user, c.model), 0, input + output - l.calls[id].charged), l.calls[id := c]), Ok(()))
  }

  /** expire() settles, one by one, the ids of an earlier read. */
  function ExpireAll(l: Ledger, ids: seq<nat>): Ledger
    decreases |ids|
  {
    if ids == [] then l else ExpireAll(SettleTx(l, ids[0], None, false), ids[1..])
  }

  // ----- the object -----

  class SharedBudget {
    var accounts: map<Account, Balance>
    var calls: seq<Call>
    const limits: Limits

    ghost function Contents(): Ledger
      reads this
    {
      Ledger(accounts, calls)
    }

    constructor (limits: Limits)
      ensures Contents() == Ledger(map[], []) && this.limits == limits
    {
      this.limits := limits;
      accounts, calls := map[], [];
    }

    method CountCalls(p: Call -> bool) returns (n: nat)
      ensures n == Count(calls, p)
    {
      n := 0;
      var i := 0;
      while i < |calls|
        invariant 0 <= i <= |calls| && n == Count(calls[..i], p)
      {
        assert calls[..i + 1][..i] == calls[..i];
        if p(calls[i]) {
          n := n + 1;
        }
        i := i + 1;
      }
      assert calls[..i] == calls;
    }

    /** Sixteen attempts; the first `lost` are rolled back by concurrent reservations. */
    method Reserve(user: string, model: string, tokens: int, now: real, timeout: real, lost: nat)
      returns (r: Result<nat, BudgetError>)
      modifies this
      ensures tokens < 1 ==> r == Err(EstimateInvalid) && Contents() == old(Contents())
      ensures tokens >= 1 && lost >= 16 ==> r == Err(Contention) && Contents() == old(Contents())
      ensures tokens >= 1 && lost < 16 ==>
        (Contents(), r) == ReserveTx(old(Contents()), limits, user, model, tokens, now, timeout)
    {
      if tokens < 1 {
        return Err(EstimateInvalid);
      }
      for attempt := 0 to 16
        invariant Contents() == old(Contents())
        invariant attempt <= lost
      {
        if attempt >= lost {
          var ids := AccountsOf(user, model);
          var rows := accounts;
          var i := 0;
          while i < |ids|
            invariant 0 <= i <= |ids| && Contents() == old(Contents())
            invariant ReserveAccounts(accounts, ids, tokens, limits) == ReserveAccounts(rows, ids[i..], tokens, limits)
          {
            var row := if ids[i] in rows then rows[ids[i]] else Balance(0, 0, 0);
            if row.spent + row.reserved + tokens > limits.tokenBudget {
              return Err(BudgetExceeded);
            }
            rows := rows[ids[i] := row.(version := row.version + 1, reserved := row.reserved + tokens)];
            assert ids[i..][1..] == ids[i + 1..];
            i := i + 1;
          }
          assert ids[i..] == [];
          assert ReserveAccounts(accounts, ids, tokens, limits) == Ok(rows);
          var scopes := ScopesOf(user, model);
          i := 0;
          while i < |scopes|
            invariant 0 <= i <= |scopes| && Contents() == old(Contents())
            invariant RateRefusal(calls, scopes, now, limits) == RateRefusal(calls, scopes[i..], now, limits)
          {
            assert scopes[i..][0] == scopes[i];
            var started := CountCalls(StartedAfter(scopes[i], now - 60.0));
            var active := CountCalls(ActiveAt(scopes[i], now));
            if started >= limits.rpm {
              return Err(RpmExceeded);
            }
            if active >= limits.concurrency {
              return Err(ConcurrencyExceeded);
            }
            assert scopes[i..][1..] == scopes[i + 1..];
            i := i + 1;
          }
          var id := |calls|;
          accounts := rows;
          calls := calls + [NewCall(user, model, tokens, now, timeout)];
          return Ok(id);
        }
      }
      return Err(Contention);
    }

    method Bill(ids: seq<Account>, released: int, spent: int)
      modifies this`accounts
      ensures accounts == Adjust(old(accounts), ids, released, spent)
    {
      var i := 0;
      while i < |ids|
        invariant 0 <= i <= |ids|
        invariant Adjust(old(accounts), ids, released, spent) == Adjust(accounts, ids[i..], released, spent)
      {
        if ids[i] in accounts {
          var b := accounts[ids[i]];
          accounts := accounts[ids[i] := Balance(b.version + 1, b.spent + spent, b.reserved - released)];
        }
        assert ids[i..][1..] == ids[i + 1..];
        i := i + 1;
      }
    }

    method Settle(id: nat, usage: Option<(int, int)>, failed: bool)
      modifies this
      ensures Contents() == SettleTx(old(Contents()), id, usage, failed)
    {
      if id < |calls| && calls[id].status == Reserved {
        var row := calls[id];
        var status, inp, out, charged := NeedsReconciliation, 0, 0, row.reserved;
        if usage.Some? {
          inp, out := Max0(usage.value.0), Max0(usage.value.1);
          charged := inp + out;
          status := if failed then FailedAccounted else Settled;
        }
        calls := calls[id := row.(status := status, inputTokens := inp, outputTokens := out, charged := charged, leaseUntil := 0.0)];
        Bill(AccountsOf(row.user, row.model), row.reserved, charged);
      }
    }

    method Reconcile(id: nat, input: int, output: int, receipt: string) returns (r: Result<(), BudgetError>)
      modifies this
      ensures (Contents(), r) == ReconcileTx(old(Contents()), id, input, output, receipt)
    {
      if input < 0 || output < 0 || receipt == "" {
        return Err(ReceiptInvalid);
      }
      if id >= |calls| {
        return Err(CallNotFound);
      }
      var row := calls[id];
      if row.status != NeedsReconciliation {
        return Err(AlreadySettled);
      }
      calls := calls[id := row.(status := Reconciled, inputTokens := input, outputTokens := output, charged := input + output)];
      Bill(AccountsOf(row.user, row.model), 0, input + output - row.charged);
      return Ok(());
    }

    /** `ids` was read earlier; calls settled in the meantime are left alone. */
    method Expire(ids: seq<nat>)
      modifies this
      ensures Contents() == ExpireAll(old(Contents()), ids)
    {
      var i := 0;
      while i < |ids|
        invariant 0 <= i <= |ids|
        invariant ExpireAll(old(Contents()), ids) == ExpireAll(Contents(), ids[i..])
      {
        Settle(ids[i], None, false);
        assert ids[i..][1..] == ids[i + 1..];
        i := i + 1;
      }
    }
  }
}
