/**
 When a message of the delivery queue may be handed out, and for how long its holder is safe:
 stated on clock readings and attempt numbers.
 */
module LeaseTiming {
  import opened Wrappers
  import opened LeaseQueues

  /** A poll returns the row at exactly the readings from `t` on. */
  ghost predicate DueFrom<P>(row: Row<P>, t: real)
  {
    forall at :: Eligible(row, at) <==> t <= at
  }

  ghost predicate NeverDue<P>(row: Row<P>)
  {
    forall at :: !Eligible(row, at)
  }

  /** A new message is due after its delay, with all its attempts and no holder. */
  lemma NewIsDue<P>(t: Table<P>, id: string, aggregate: string, payload: P, now: real, maxAttempts: nat, delay: real, claim: Lease<P>, at: real)
    ensures var row := NewRow(aggregate, payload, now, maxAttempts, delay);
      && DueFrom(row, now + delay)
      && row.aggregate == aggregate && row.payload == payload && row.maxAttempts == maxAttempts
      && row.attempt == row.fence == 0 && row.version == 1 && row.error == "" && row.owner == "" && row.leaseUntil == 0.0
      && (claim.id == id ==> !Owned(t[id := row], claim, at))
  {}

  /**
   A granted claim is safe for exactly its lease: at the readings before `now + lease`, and at no
   other, its holder passes the lease check and may finish, and no poll returns the row.
   */
  lemma ClaimHolds<P>(t: Table<P>, id: string, stale: Row<P>, owner: string, now: real, lease: real)
    requires id in t ==> Evolves(stale, t[id])
    requires TryClaim(t, id, stale, owner, now, lease).1.Some?
    ensures var (t', claim) := TryClaim(t, id, stale, owner, now, lease); var c := claim.value;
      && c.id == id && c.row.owner == owner && c.row == t'[id]
      && (forall at :: Owned(t', c, at) <==> at < now + lease)
      && DueFrom(t'[id], now + lease)
      && (forall error, delay, at, later :: FinishLease(t', c, error, delay, at, later).1.Ok? <==> at < now + lease)
  {}

  /** The lease check in full: the holder named in the row, under the same fence, before the end of the lease. */
  lemma OwnedIff<P>(t: Table<P>, claim: Lease<P>, at: real)
    ensures Owned(t, claim, at) <==>
      && claim.id in t && t[claim.id].status == Running && at < t[claim.id].leaseUntil
      && (t[claim.id].owner, t[claim.id].fence) == (claim.row.owner, claim.row.fence)
  {}

  /** A claim that finds no attempt left closes the row for good and says why. */
  lemma ExhaustedIsDead<P>(t: Table<P>, id: string, stale: Row<P>, owner: string, now: real, lease: real)
    requires id in t && t[id].version == stale.version && stale.attempt >= stale.maxAttempts
    ensures var (t', claim) := TryClaim(t, id, stale, owner, now, lease);
      && claim.None? && t'[id].status == Dead && NeverDue(t'[id]) && t'[id].error == "ATTEMPTS_EXHAUSTED"
      && t'[id].attempt == t[id].attempt && t'[id].version == stale.version + 1 && t'[id].leaseUntil == 0.0
  {}

  /** Doubling with the number of attempts, from one second up to a minute. */
  lemma {:induction false} BackoffDoubles(attempt: nat)
    ensures Backoff(0, None) == 1.0
    ensures var next := 2.0 * Backoff(attempt, None); Backoff(attempt + 1, None) == if next < 60.0 then next else 60.0
    ensures 1.0 <= Backoff(attempt, None) <= 60.0
    ensures forall d :: Backoff(attempt, Some(d)) == d
  {
    if attempt > 0 {
      BackoffDoubles(attempt - 1);
    }
    PowersAreLarge(attempt);
  }

  lemma {:induction false} PowersAreLarge(n: nat)
    ensures Pow2(n) >= 1 && Pow2(n + 1) == 2 * Pow2(n)
  {
    if n > 0 {
      PowersAreLarge(n - 1);
    }
  }

  /**
   What a finish by the holder leaves: delivered without an error or a delay; otherwise dead if the
   attempts are used up, and due again after the delay asked for, or the backoff. It ends the claim.
   */
  lemma FinishReschedules<P>(t: Table<P>, claim: Lease<P>, error: string, delay: Option<real>, checked: real, now: real)
    requires Owned(t, claim, checked)
    ensures var (t', r) := FinishLease(t, claim, error, delay, checked, now); var row, row' := t[claim.id], t'[claim.id];
      && r.Ok? && r.value == row'.status && row'.error == error && row'.version == row.version + 1
      && row'.attempt == row.attempt && row'.maxAttempts == row.maxAttempts && row'.leaseUntil == 0.0
      && (row'.status == Sent <==> |error| == 0 && delay.None?)
      && (row'.status == Dead <==> (|error| > 0 || delay.Some?) && row.maxAttempts <= row.attempt)
      && (if row'.status == Pending then DueFrom(row', now + if delay.Some? then delay.value else Backoff(row.attempt, None)) else NeverDue(row'))
      && (forall at :: !Owned(t', claim, at))
  {}

  /** A terminal receipt takes a row out of the queue whatever its state. */
  lemma RetiredIsOut<P>(t: Table<P>, aggregate: string, id: string, claim: Lease<P>, at: real)
    requires id in t
    ensures var t' := RetireAll(t, aggregate);
      if t[id].aggregate != aggregate then t'[id] == t[id]
      else
        && t'[id].status == Sent && NeverDue(t'[id]) && t'[id].version == t[id].version + 1 && t'[id].leaseUntil == 0.0
        && (claim.id == id ==> !Owned(t', claim, at))
  {}

  /** A reopened row is due at once, with twelve more attempts and no error. */
  lemma ReopenedIsDue<P>(row: Row<P>, now: real)
    ensures DueFrom(Reopened(row, now), now) && Reopened(row, now).error == ""
    ensures Reopened(row, now).maxAttempts - row.attempt == 12 && Reopened(row, now).attempt == row.attempt
    ensures Reopened(row, now).fence == row.fence && Reopened(row, now).version == row.version + 1
  {}

  // ----- the claim loop -----

  /** The k-th polled row is still the stored one. */
  predicate Live<P>(t: Table<P>, rows: seq<(string, Row<P>)>, k: nat)
    requires k < |rows|
  {
    rows[k].0 in t && t[rows[k].0].version == rows[k].1.version
  }

  predicate Takable<P>(t: Table<P>, rows: seq<(string, Row<P>)>, k: nat)
    requires k < |rows|
  {
    Live(t, rows, k) && rows[k].1.attempt < rows[k].1.maxAttempts
  }

  predicate DistinctIds<P>(rows: seq<(string, Row<P>)>)
  {
    forall i, j :: 0 <= i < j < |rows| ==> rows[i].0 != rows[j].0
  }

  /** None of the live rows up to position `k` is this one. */
  ghost predicate NotReached<P>(t: Table<P>, rows: seq<(string, Row<P>)>, k: nat, id: string)
  {
    forall j :: 0 <= j < |rows| && j <= k && Live(t, rows, j) ==> rows[j].0 != id
  }

  /** The loop stopped at position `k`: rows before it were passed over, live ones among them buried. */
  ghost predicate StoppedAt<P>(t: Table<P>, t': Table<P>, rows: seq<(string, Row<P>)>, k: nat)
    requires k <= |rows|
  {
    && t'.Keys == t.Keys
    && (forall j :: 0 <= j < k ==> !Takable(t, rows, j))
    && (forall j :: 0 <= j < k && Live(t, rows, j) ==> t'[rows[j].0].status == Dead)
    && (forall id {:trigger NotReached(t, rows, k, id)} :: id in t && NotReached(t, rows, k, id) ==> t'[id] == t[id])
  }

  /** Passing the first row does not change which later ones are live. */
  lemma RestLive<P>(t: Table<P>, t1: Table<P>, rows: seq<(string, Row<P>)>)
    requires rows != [] && DistinctIds(rows) && t1.Keys == t.Keys
    requires forall id :: id in t && id != rows[0].0 ==> t1[id] == t[id]
    ensures forall j :: 0 <= j < |rows| - 1 ==> Live(t1, rows[1..], j) == Live(t, rows, j + 1)
    ensures forall j :: 0 <= j < |rows| - 1 ==> Takable(t1, rows[1..], j) == Takable(t, rows, j + 1)
  {
    forall j | 0 <= j < |rows| - 1
      ensures Live(t1, rows[1..], j) == Live(t, rows, j + 1) && Takable(t1, rows[1..], j) == Takable(t, rows, j + 1)
    {
      assert rows[1..][j] == rows[j + 1] && rows[0].0 != rows[j + 1].0;
    }
  }

  lemma StepPast<P>(t: Table<P>, t1: Table<P>, t': Table<P>, rows: seq<(string, Row<P>)>, k: nat)
    requires rows != [] && DistinctIds(rows) && !Takable(t, rows, 0) && k < |rows| && t1.Keys == t.Keys
    requires forall id :: id in t && (id != rows[0].0 || !Live(t, rows, 0)) ==> t1[id] == t[id]
    requires Live(t, rows, 0) ==> t1[rows[0].0].status == Dead
    requires StoppedAt(t1, t', rows[1..], k)
    ensures StoppedAt(t, t', rows, k + 1)
  {
    var rest := rows[1..];
    RestLive(t, t1, rows);
    if Live(t, rows, 0) {
      assert NotReached(t1, rest, k, rows[0].0);
    }
    forall j | 0 <= j < k + 1 ensures !Takable(t, rows, j) && (Live(t, rows, j) ==> t'[rows[j].0].status == Dead) {
      if j > 0 { assert !Takable(t1, rest, j - 1) && Live(t1, rest, j - 1) == Live(t, rows, j); }
    }
    forall id | id in t && NotReached(t, rows, k + 1, id) ensures t'[id] == t[id] {
      forall j | 0 <= j < |rest| && j <= k && Live(t1, rest, j) ensures rest[j].0 != id {
        assert Live(t, rows, j + 1);
      }
      assert NotReached(t1, rest, k, id);
    }
  }

  lemma TakesHead<P>(t: Table<P>, rows: seq<(string, Row<P>)>, owner: string, now: real, lease: real)
    requires rows != [] && Takable(t, rows, 0)
    ensures var (t', claim) := ClaimFrom(t, rows, owner, now, lease);
      && StoppedAt(t, t', rows, 0)
      && claim.Some? && claim.value.id == rows[0].0 && claim.value.row.fence == rows[0].1.fence + 1
  {
    var t' := ClaimFrom(t, rows, owner, now, lease).0;
    forall id | id in t && NotReached(t, rows, 0, id) ensures t'[id] == t[id] { assert rows[0].0 != id; }
  }

  /**
   The loop over a poll, however old: it takes the first row that is unchanged since the poll and has
   an attempt left, buries the unchanged rows without one that it passes, and touches nothing else.
   */
  lemma {:induction false} ClaimTakesFirst<P>(t: Table<P>, rows: seq<(string, Row<P>)>, owner: string, now: real, lease: real)
    returns (k: nat)
    requires DistinctIds(rows)
    ensures k <= |rows|
    ensures var (t', claim) := ClaimFrom(t, rows, owner, now, lease);
      && StoppedAt(t, t', rows, k)
      && (claim.None? <==> k == |rows|)
      && (k < |rows| ==> Takable(t, rows, k) && claim.value.id == rows[k].0 && claim.value.row.fence == rows[k].1.fence + 1)
    decreases |rows|
  {
    if rows == [] {
      k := 0;
    } else if Takable(t, rows, 0) {
      k := 0;
      TakesHead(t, rows, owner, now, lease);
    } else {
      var t1 := TryClaim(t, rows[0].0, rows[0].1, owner, now, lease).0;
      var rest := ClaimTakesFirst(t1, rows[1..], owner, now, lease);
      k := rest + 1;
      RestLive(t, t1, rows);
      StepPast(t, t1, ClaimFrom(t1, rows[1..], owner, now, lease).0, rows, rest);
    }
  }
}
