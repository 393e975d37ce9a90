/**
 The delivery queue of app/repositories/delivery.py: rows claimed through a stale read
 followed by a version compare-and-swap, protected by a lease and a fencing number.

 Every statement of one transaction is a function on the whole table; the class at the end
 of the file executes the same statements on its field. `Evolves` is the relation that every
 writer of the table keeps for every row, and that everything a worker remembers relies on.
 */
module LeaseQueues {
  import opened Wrappers

  datatype Status = Pending | Running | Sent | Dead

  datatype Row<P> = Row(
    aggregate: string,
    payload: P,
    status: Status,
    attempt: nat,
    maxAttempts: nat,
    owner: string,
    fence: nat,
    version: nat,
    leaseUntil: real,
    nextAttemptAt: real,
    error: string)

  type Table<P> = map<string, Row<P>>

  /** What a worker holds after a successful claim: the row as it was written. */
  datatype Lease<P> = Lease(id: string, row: Row<P>)

  datatype Denied = Conflict

  function NewRow<P>(aggregate: string, payload: P, now: real, maxAttempts: nat, delay: real): Row<P>
  {
    Row(aggregate, payload, Pending, 0, maxAttempts, "", 0, 1, 0.0, now + delay, "")
  }

  /** The rows a poll at time `now` may return. */
  predicate Eligible<P>(row: Row<P>, now: real)
  {
    || (row.status == Pending && row.nextAttemptAt <= now)
    || (row.status == Running && row.leaseUntil <= now)
  }

  /** The columns a claim writes into the current row, computed from the row read earlier. */
  function ClaimWrites<P>(current: Row<P>, stale: Row<P>, owner: string, now: real, lease: real): Row<P>
  {
    if stale.attempt < stale.maxAttempts then
      current.(status := Running, owner := owner, fence := stale.fence + 1, attempt := stale.attempt + 1,
        leaseUntil := now + lease, version := stale.version + 1)
    else
      current.(status := Dead, error := "ATTEMPTS_EXHAUSTED", leaseUntil := 0.0, version := stale.version + 1)
  }

  /** One conditional update of the claim loop; the claim is built from the stale row. */
  function TryClaim<P>(t: Table<P>, id: string, stale: Row<P>, owner: string, now: real, lease: real)
    : (Table<P>, Option<Lease<P>>)
  {
    if id !in t || t[id].version != stale.version then (t, None)
    else
      (t[id := ClaimWrites(t[id], stale, owner, now, lease)],
       if stale.attempt < stale.maxAttempts
       then Some(Lease(id, ClaimWrites(stale, stale, owner, now, lease)))
       else None)
  }

  /** The claim loop over a snapshot that may be arbitrarily old. */
  function ClaimFrom<P>(t: Table<P>, rows: seq<(string, Row<P>)>, owner: string, now: real, lease: real)
    : (Table<P>, Option<Lease<P>>)
  {
    if rows == [] then (t, None)
    else
      var (t', claim) := TryClaim(t, rows[0].0, rows[0].1, owner, now, lease);
      if claim.Some? then (t', claim) else ClaimFrom(t', rows[1..], owner, now, lease)
  }

  /** The lease check shared by `owned` and `guard`. */
  predicate Owned<P>(t: Table<P>, claim: Lease<P>, now: real)
  {
    && claim.id in t
    && t[claim.id].status == Running
    && t[claim.id].owner == claim.row.owner
    && t[claim.id].fence == claim.row.fence
    && t[claim.id].leaseUntil > now
  }

  function Pow2(n: nat): nat
  {
    if n == 0 then 1 else 2 * Pow2(n - 1)
  }

  /** `min(60, 2 ** attempt)` seconds unless the caller gives a delay. */
  function Backoff(attempt: nat, delay: Option<real>): real
  {
    match delay
    case Some(d) => d
    case None => if Pow2(attempt) < 60 then Pow2(attempt) as real else 60.0
  }

  /** A finish without an error and without a delay means delivered. */
  function FinishStatus<P>(row: Row<P>, error: string, delay: Option<real>): Status
  {
    if error == "" && delay.None? then Sent
    else if row.attempt >= row.maxAttempts then Dead
    else Pending
  }

  function Finished<P>(row: Row<P>, error: string, delay: Option<real>, now: real): Row<P>
  {
    row.(status := FinishStatus(row, error, delay), leaseUntil := 0.0, error := error,
      nextAttemptAt := now + Backoff(row.attempt, delay), version := row.version + 1)
  }

  /** `checked` is the clock reading of the lease check, `now` the later one of the update. */
  function FinishLease<P>(t: Table<P>, claim: Lease<P>, error: string, delay: Option<real>, checked: real, now: real)
    : (Table<P>, Result<Status, Denied>)
  {
    if !Owned(t, claim, checked) then (t, Err(Conflict))
    else
      (t[claim.id := Finished(t[claim.id], error, delay, now)],
       Ok(FinishStatus(t[claim.id], error, delay)))
  }

  /** Written by a terminal business receipt to every row of the aggregate. */
  function Retired<P>(row: Row<P>): Row<P>
  {
    row.(status := Sent, leaseUntil := 0.0, version := row.version + 1)
  }

  /** The bulk update over all rows of one aggregate. */
  function RetireAll<P>(t: Table<P>, aggregate: string): Table<P>
  {
    map id | id in t :: if t[id].aggregate == aggregate then Retired(t[id]) else t[id]
  }

  /** Written when an operator asks for another round of queries. */
  function Reopened<P>(row: Row<P>, now: real): Row<P>
  {
    row.(status := Pending, nextAttemptAt := now, maxAttempts := row.attempt + 12, error := "",
      version := row.version + 1)
  }

  // ----- what every writer keeps, row by row -----

  ghost predicate Evolves<P>(a: Row<P>, b: Row<P>)
  {
    && a.aggregate == b.aggregate
    && a.payload == b.payload
    && a.version <= b.version
    && (a.version == b.version ==> a == b)
    && a.fence <= b.fence
    && (a.fence == b.fence && b.status == Running ==> a == b)
  }

  ghost predicate RowOk<P>(row: Row<P>)
  {
    && row.attempt == row.fence
    && row.attempt <= row.maxAttempts
    && (row.status == Pending ==> row.attempt < row.maxAttempts)
  }

  ghost predicate TableOk<P>(t: Table<P>)
  {
    forall id :: id in t ==> RowOk(t[id])
  }

  ghost predicate TableEvolves<P>(t: Table<P>, t': Table<P>)
  {
    forall id :: id in t ==> id in t' && Evolves(t[id], t'[id])
  }

  lemma EvolvesTransitive<P>(a: Row<P>, b: Row<P>, c: Row<P>)
    requires Evolves(a, b) && Evolves(b, c)
    ensures Evolves(a, c)
  {}

  lemma TableEvolvesTransitive<P>(a: Table<P>, b: Table<P>, c: Table<P>)
    requires TableEvolves(a, b) && TableEvolves(b, c)
    ensures TableEvolves(a, c)
  {
    forall id | id in a ensures id in c && Evolves(a[id], c[id]) {
      EvolvesTransitive(a[id], b[id], c[id]);
    }
  }

  /**
   A claim built from a stale snapshot is safe: the version check lets it through only when the
   snapshot still is the row, and then the fence it grants is exactly one above the row's.
   */
  lemma TryClaimKeeps<P>(t: Table<P>, id: string, stale: Row<P>, owner: string, now: real, lease: real)
    requires TableOk(t)
    requires id in t ==> Evolves(stale, t[id])
    ensures var (t', claim) := TryClaim(t, id, stale, owner, now, lease);
      && TableOk(t') && TableEvolves(t, t') && t'.Keys == t.Keys
      && (forall other :: other in t && other != id ==> t'[other] == t[other])
      && (id in t' && t'[id] != t[id] ==> stale == t[id])
      && (claim.Some? ==>
            && id in t && claim.value == Lease(id, t'[id])
            && t'[id].fence == t[id].fence + 1 && t'[id].attempt == t[id].attempt + 1
            && t[id].attempt < t[id].maxAttempts && t'[id].status == Running)
      && (claim.None? && id in t && t'[id] != t[id] ==> t'[id].status == Dead && t'[id].fence == t[id].fence)
  {}

  lemma FinishKeeps<P>(t: Table<P>, claim: Lease<P>, error: string, delay: Option<real>, checked: real, now: real)
    requires TableOk(t)
    requires claim.id in t && Evolves(claim.row, t[claim.id])
    ensures var (t', r) := FinishLease(t, claim, error, delay, checked, now);
      && TableOk(t') && TableEvolves(t, t') && t'.Keys == t.Keys
      && (forall other :: other in t && other != claim.id ==> t'[other] == t[other])
      && (r.Ok? ==> t[claim.id] == claim.row && t'[claim.id].status == r.value && t'[claim.id].fence == claim.row.fence)
      && (r.Err? ==> t' == t)
  {}

  lemma RetireAllKeeps<P>(t: Table<P>, aggregate: string)
    requires TableOk(t)
    ensures TableOk(RetireAll(t, aggregate)) && TableEvolves(t, RetireAll(t, aggregate))
    ensures RetireAll(t, aggregate).Keys == t.Keys
  {}

  /** The poll-and-claim loop as the object runs it on its table. */
  class LeaseQueue<P> {
    var table: Table<P>

    constructor ()
      ensures table == map[]
    {
      table := map[];
    }

    /** Inserting an existing message id violates the primary key and changes nothing. */
    method Enqueue(id: string, aggregate: string, payload: P, now: real, maxAttempts: nat, delay: real)
      returns (inserted: bool)
      modifies this
      ensures inserted == (id !in old(table))
      ensures table == if inserted then old(table)[id := NewRow(aggregate, payload, now, maxAttempts, delay)] else old(table)
    {
      inserted := id !in table;
      if inserted {
        table := table[id := NewRow(aggregate, payload, now, maxAttempts, delay)];
      }
    }

    /** `rows` is the snapshot of an earlier poll; nothing is assumed about its age. */
    method Claim(rows: seq<(string, Row<P>)>, owner: string, now: real, lease: real) returns (claim: Option<Lease<P>>)
      modifies this
      ensures (table, claim) == ClaimFrom(old(table), rows, owner, now, lease)
    {
      claim := None;
      var i := 0;
      while i < |rows|
        invariant 0 <= i <= |rows|
        invariant claim.None?
        invariant ClaimFrom(old(table), rows, owner, now, lease) == ClaimFrom(table, rows[i..], owner, now, lease)
      {
        var id, stale := rows[i].0, rows[i].1;
        if id in table && table[id].version == stale.version {
          table := table[id := ClaimWrites(table[id], stale, owner, now, lease)];
          if stale.attempt < stale.maxAttempts {
            claim := Some(Lease(id, ClaimWrites(stale, stale, owner, now, lease)));
            return;
          }
        }
        assert rows[i..][1..] == rows[i + 1..];
        i := i + 1;
      }
    }

    method Finish(claim: Lease<P>, error: string, delay: Option<real>, checked: real, now: real)
      returns (r: Result<Status, Denied>)
      modifies this
      ensures (table, r) == FinishLease(old(table), claim, error, delay, checked, now)
    {
      if !Owned(table, claim, checked) {
        return Err(Conflict);
      }
      var row := table[claim.id];
      var status := Sent;
      if error != "" || delay.Some? {
        status := if row.attempt >= row.maxAttempts then Dead else Pending;
      }
      var wait := if delay.Some? then delay.value else Backoff(row.attempt, None);
      table := table[claim.id := row.(status := status, leaseUntil := 0.0, error := error,
        nextAttemptAt := now + wait, version := row.version + 1)];
      return Ok(status);
    }
  }
}
