/**
 Any number of workers on one delivery queue, interleaved at every statement, with crashes and a
 clock that may jump in either direction. Between a poll and each conditional update the table
 may have been changed by anybody.
 */
module LeaseProtocol {
  import opened Wrappers
  import opened LeaseQueues

  /**
   The queue, what each worker remembers, and the history of granted claims:
   `grants[(id, fence)]` is the worker whose conditional update wrote that fence.
   */
  datatype Queue<P> = Queue(
    table: Table<P>,
    polled: map<nat, seq<(string, Row<P>)>>,
    held: map<nat, Lease<P>>,
    grants: map<(string, nat), nat>)

  datatype Step<P> =
    | Insert(id: string, aggregate: string, payload: P, now: real, maxAttempts: nat, wait: real)
    | Poll(worker: nat, rows: seq<(string, Row<P>)>, now: real)
    | TryNext(worker: nat, owner: string, now: real, lease: real)
    | Close(worker: nat, error: string, delay: Option<real>, checked: real, now: real)
    | Crash(worker: nat)
    | Retire(aggregate: string)
    | Reopen(id: string, now: real)

  /** What a poll at reading `now` may return: stored rows that are due. */
  predicate DueRows<P(==)>(t: Table<P>, rows: seq<(string, Row<P>)>, now: real)
  {
    forall i :: 0 <= i < |rows| ==> rows[i].0 in t && t[rows[i].0] == rows[i].1 && Eligible(rows[i].1, now)
  }

  /** One atomic step; a step whose guard is false changes nothing. */
  function Do<P(==)>(q: Queue<P>, step: Step<P>): Queue<P>
  {
    match step
    case Insert(id, aggregate, payload, now, maxAttempts, wait) =>
      if id in q.table || maxAttempts == 0 then q
      else q.(table := q.table[id := NewRow(aggregate, payload, now, maxAttempts, wait)])
    case Poll(w, rows, now) =>
      if !DueRows(q.table, rows, now) then q else q.(polled := q.polled[w := rows])
    case TryNext(w, owner, now, lease) =>
      if w !in q.polled || q.polled[w] == [] then q
      else
        var (id, stale) := q.polled[w][0];
        var (table, claim) := TryClaim(q.table, id, stale, owner, now, lease);
        if claim.Some?
        then q.(table := table, polled := q.polled[w := []], held := q.held[w := claim.value],
                grants := q.grants[(id, claim.value.row.fence) := w])
        else q.(table := table, polled := q.polled[w := q.polled[w][1..]])
    case Close(w, error, delay, checked, now) =>
      if w !in q.held then q
      else q.(table := FinishLease(q.table, q.held[w], error, delay, checked, now).0)
    case Crash(w) => q.(polled := q.polled - {w}, held := q.held - {w})
    case Retire(aggregate) => q.(table := RetireAll(q.table, aggregate))
    case Reopen(id, now) =>
      if id !in q.table || q.table[id].status !in {Dead, Sent} then q
      else q.(table := q.table[id := Reopened(q.table[id], now)])
  }

  function Run<P(==)>(q: Queue<P>, steps: seq<Step<P>>): Queue<P>
    decreases |steps|
  {
    if steps == [] then q else Run(Do(q, steps[0]), steps[1..])
  }

  ghost predicate Empty<P>(q: Queue<P>)
  {
    q == Queue(map[], map[], map[], map[])
  }

  // ----- the invariant -----

  ghost predicate Remembers<P>(t: Table<P>, id: string, row: Row<P>)
  {
    id in t && Evolves(row, t[id])
  }

  /** Fences granted so far are exactly 1..fence of the row. */
  ghost predicate GrantsMatch<P>(q: Queue<P>)
  {
    forall id, f: nat :: (id, f) in q.grants <==> id in q.table && 1 <= f <= q.table[id].fence
  }

  ghost predicate PolledOk<P>(q: Queue<P>, w: nat)
  {
    w in q.polled ==> forall i :: 0 <= i < |q.polled[w]| ==> Remembers(q.table, q.polled[w][i].0, q.polled[w][i].1)
  }

  ghost predicate HeldOk<P>(q: Queue<P>, w: nat)
  {
    w in q.held ==>
      && Remembers(q.table, q.held[w].id, q.held[w].row)
      && q.held[w].row.status == Running
      && (q.held[w].id, q.held[w].row.fence) in q.grants
      && q.grants[(q.held[w].id, q.held[w].row.fence)] == w
  }

  ghost predicate Inv<P>(q: Queue<P>)
  {
    && TableOk(q.table)
    && GrantsMatch(q)
    && (forall w :: PolledOk(q, w) && HeldOk(q, w))
  }

  lemma StepTable<P>(q: Queue<P>, step: Step<P>)
    requires Inv(q)
    ensures TableOk(Do(q, step).table) && TableEvolves(q.table, Do(q, step).table)
  {
    match step
    case TryNext(w, owner, now, lease) =>
      if w in q.polled && q.polled[w] != [] {
        assert PolledOk(q, w);
        TryClaimKeeps(q.table, q.polled[w][0].0, q.polled[w][0].1, owner, now, lease);
      }
    case Close(w, error, delay, checked, now) =>
      if w in q.held {
        assert HeldOk(q, w);
        FinishKeeps(q.table, q.held[w], error, delay, checked, now);
      }
    case Retire(aggregate) => RetireAllKeeps(q.table, aggregate);
    case _ =>
  }

  /** A grant is never rewritten: a new claim always carries a fence nobody had. */
  ghost predicate GrantsGrow<P>(q: Queue<P>, q': Queue<P>)
  {
    forall g :: g in q.grants ==> g in q'.grants && q'.grants[g] == q.grants[g]
  }

  lemma TryNextGrants<P>(q: Queue<P>, w: nat, owner: string, now: real, lease: real)
    requires Inv(q)
    ensures var q' := Do(q, TryNext(w, owner, now, lease)); GrantsMatch(q') && GrantsGrow(q, q')
  {
    if w in q.polled && q.polled[w] != [] {
      assert PolledOk(q, w);
      TryClaimKeeps(q.table, q.polled[w][0].0, q.polled[w][0].1, owner, now, lease);
    }
  }

  lemma StepGrants<P>(q: Queue<P>, step: Step<P>)
    requires Inv(q)
    ensures GrantsMatch(Do(q, step)) && GrantsGrow(q, Do(q, step))
  {
    match step
    case TryNext(w, owner, now, lease) => TryNextGrants(q, w, owner, now, lease);
    case Close(w, error, delay, checked, now) =>
      if w in q.held {
        assert HeldOk(q, w);
        FinishKeeps(q.table, q.held[w], error, delay, checked, now);
      }
    case Retire(aggregate) => RetireAllKeeps(q.table, aggregate);
    case _ =>
  }

  lemma MemoryStable<P>(t: Table<P>, t': Table<P>, id: string, row: Row<P>)
    requires Remembers(t, id, row) && TableEvolves(t, t')
    ensures Remembers(t', id, row)
  {
    EvolvesTransitive(row, t[id], t'[id]);
  }

  /** Without a poll of its own a worker's list only loses rows at the front. */
  lemma PolledShape<P>(q: Queue<P>, step: Step<P>, w: nat)
    requires w in Do(q, step).polled && !(step.Poll? && step.worker == w && DueRows(q.table, step.rows, step.now))
    ensures w in q.polled
    ensures var rows, rows' := q.polled[w], Do(q, step).polled[w];
      rows' == rows || rows' == [] || (rows != [] && rows' == rows[1..])
  {}

  lemma StepPolled<P>(q: Queue<P>, step: Step<P>, w: nat)
    requires Inv(q)
    ensures PolledOk(Do(q, step), w)
  {
    var q' := Do(q, step);
    StepTable(q, step);
    if w in q'.polled && !(step.Poll? && step.worker == w && DueRows(q.table, step.rows, step.now)) {
      PolledShape(q, step, w);
      assert PolledOk(q, w);
      forall i | 0 <= i < |q.polled[w]| ensures Remembers(q'.table, q.polled[w][i].0, q.polled[w][i].1) {
        MemoryStable(q.table, q'.table, q.polled[w][i].0, q.polled[w][i].1);
      }
    }
  }

  lemma StepHeld<P>(q: Queue<P>, step: Step<P>, w: nat)
    requires Inv(q)
    ensures HeldOk(Do(q, step), w)
  {
    var q' := Do(q, step);
    StepTable(q, step);
    StepGrants(q, step);
    if w in q'.held {
      if w in q.held && q'.held[w] == q.held[w] {
        assert HeldOk(q, w);
        MemoryStable(q.table, q'.table, q.held[w].id, q.held[w].row);
      } else {
        assert PolledOk(q, w);
        TryClaimKeeps(q.table, q.polled[w][0].0, q.polled[w][0].1, step.owner, step.now, step.lease);
      }
    }
  }

  lemma StepInv<P>(q: Queue<P>, step: Step<P>)
    requires Inv(q)
    ensures Inv(Do(q, step))
  {
    StepTable(q, step);
    StepGrants(q, step);
    forall w ensures PolledOk(Do(q, step), w) && HeldOk(Do(q, step), w) {
      StepPolled(q, step, w);
      StepHeld(q, step, w);
    }
  }

  lemma {:induction false} RunInv<P>(q: Queue<P>, steps: seq<Step<P>>)
    requires Inv(q)
    ensures Inv(Run(q, steps))
    ensures TableEvolves(q.table, Run(q, steps).table)
    ensures GrantsGrow(q, Run(q, steps))
    decreases |steps|
  {
    if steps == [] {
    } else {
      var next := Do(q, steps[0]);
      StepInv(q, steps[0]);
      StepTable(q, steps[0]);
      StepGrants(q, steps[0]);
      RunInv(next, steps[1..]);
      TableEvolvesTransitive(q.table, next.table, Run(q, steps).table);
    }
  }

  // ----- the promises -----

  /**
   Every run from the empty queue: attempts stay within the limit, a pending row always has an
   attempt left, and the granted fences of a row are 1, 2, ..., attempt, each held by one worker.
   */
  lemma AttemptsAndFences<P>(q: Queue<P>, steps: seq<Step<P>>, id: string)
    requires Empty(q)
    requires id in Run(q, steps).table
    ensures var end := Run(q, steps); var row := end.table[id];
      && row.attempt <= row.maxAttempts
      && (row.status == Pending ==> row.attempt < row.maxAttempts)
      && (forall f: nat :: (id, f) in end.grants <==> 1 <= f <= row.attempt)
  {
    RunInv(q, steps);
  }

  /** Two workers never hold the same fence of the same message, however they interleave. */
  lemma OneHolderPerFence<P>(q: Queue<P>, steps: seq<Step<P>>, w1: nat, w2: nat)
    requires Empty(q)
    requires w1 in Run(q, steps).held && w2 in Run(q, steps).held
    requires Run(q, steps).held[w1].id == Run(q, steps).held[w2].id
    requires Run(q, steps).held[w1].row.fence == Run(q, steps).held[w2].row.fence
    ensures w1 == w2
  {
    RunInv(q, steps);
    assert HeldOk(Run(q, steps), w1) && HeldOk(Run(q, steps), w2);
  }

  /**
   Fencing: once a claim with fence f has been granted, no lease check, guard or finish made with
   a smaller fence succeeds again, at any later state and at any clock reading.
   */
  lemma OlderFenceIsDead<P>(q: Queue<P>, steps: seq<Step<P>>, id: string, f: nat, old_: Lease<P>, now: real)
    requires Inv(q)
    requires (id, f) in q.grants
    requires old_.id == id && old_.row.fence < f
    ensures !Owned(Run(q, steps).table, old_, now)
    ensures forall error, delay, at :: FinishLease(Run(q, steps).table, old_, error, delay, now, at).0 == Run(q, steps).table
  {
    RunInv(q, steps);
  }

  /** A held claim that still passes the lease check is the row itself, unchanged since the grant. */
  lemma OwnedIsCurrent<P>(q: Queue<P>, w: nat, now: real)
    requires Inv(q) && w in q.held
    requires Owned(q.table, q.held[w], now)
    ensures q.table[q.held[w].id] == q.held[w].row
  {
    assert HeldOk(q, w);
  }

  predicate NoReopen<P>(steps: seq<Step<P>>)
  {
    forall i :: 0 <= i < |steps| ==> !steps[i].Reopen?
  }

  lemma {:induction false} LimitFixed<P>(q: Queue<P>, steps: seq<Step<P>>, id: string)
    requires id in q.table && Inv(q)
    requires NoReopen(steps)
    ensures id in Run(q, steps).table
    ensures Run(q, steps).table[id].maxAttempts == q.table[id].maxAttempts
    decreases |steps|
  {
    if steps != [] {
      StepInv(q, steps[0]);
      StepTable(q, steps[0]);
      LimitFixed(Do(q, steps[0]), steps[1..], id);
    }
  }

  ghost function FencesOf<P>(q: Queue<P>, id: string): set<nat>
  {
    set g | g in q.grants && g.0 == id :: g.1
  }

  function UpTo(n: nat): (s: set<nat>)
    ensures |s| == n
    ensures forall f: nat :: f in s <==> 1 <= f <= n
  {
    if n == 0 then {} else UpTo(n - 1) + {n}
  }

  /** Without an operator's reopening, a message is claimed at most `maxAttempts` times. */
  lemma ClaimsBounded<P>(q: Queue<P>, steps: seq<Step<P>>, id: string)
    requires Inv(q) && id in q.table
    requires NoReopen(steps)
    ensures |FencesOf(Run(q, steps), id)| <= q.table[id].maxAttempts
  {
    RunInv(q, steps);
    LimitFixed(q, steps, id);
    var end := Run(q, steps);
    assert FencesOf(end, id) == UpTo(end.table[id].fence) by {
      forall f: nat ensures f in FencesOf(end, id) <==> f in UpTo(end.table[id].fence) {
        if 1 <= f <= end.table[id].fence { assert (id, f) in end.grants; }
      }
    }
  }

  // ----- the lease keeps everybody else out -----

  /** Whatever anybody remembers of this message is older than the claim. */
  ghost predicate Outdated<P>(q: Queue<P>, c: Lease<P>, v: nat)
  {
    v in q.polled ==>
      forall i :: 0 <= i < |q.polled[v]| && q.polled[v][i].0 == c.id ==> q.polled[v][i].1.version < c.row.version
  }

  /** Worker `w` holds the claim, the row is as the claim wrote it, and no other memory of it is current. */
  ghost predicate Leased<P>(q: Queue<P>, w: nat, c: Lease<P>)
  {
    && Inv(q) && w in q.held && q.held[w] == c
    && c.id in q.table && q.table[c.id] == c.row && c.row.status == Running
    && (forall v {:trigger Outdated(q, c, v)} :: Outdated(q, c, v))
  }

  /** A step of anybody else, in which polls read the clock before the end of the lease. */
  predicate Outside<P>(step: Step<P>, w: nat, c: Lease<P>)
  {
    match step
    case Poll(v, _, now) => v != w && now < c.row.leaseUntil
    case TryNext(v, _, _, _) => v != w
    case Close(v, _, _, _, _) => v != w
    case Crash(v) => v != w
    case Retire(aggregate) => aggregate != c.row.aggregate
    case _ => true
  }

  lemma OutsideLeavesRow<P>(q: Queue<P>, step: Step<P>, w: nat, c: Lease<P>)
    requires Leased(q, w, c) && Outside(step, w, c)
    ensures var q' := Do(q, step);
      && c.id in q'.table && q'.table[c.id] == c.row && w in q'.held && q'.held[w] == c
      && (forall f: nat :: (c.id, f) in q'.grants ==> (c.id, f) in q.grants)
  {
    assert HeldOk(q, w);
    match step
    case TryNext(v, owner, now, lease) => assert Outdated(q, c, v);
    case Close(v, error, delay, checked, now) => assert HeldOk(q, v);
    case _ =>
  }

  lemma OutsideOutdated<P>(q: Queue<P>, step: Step<P>, w: nat, c: Lease<P>, v: nat)
    requires Leased(q, w, c) && Outside(step, w, c)
    ensures Outdated(Do(q, step), c, v)
  {
    assert Outdated(q, c, v);
  }

  lemma OutsideKeeps<P>(q: Queue<P>, step: Step<P>, w: nat, c: Lease<P>)
    requires Leased(q, w, c) && Outside(step, w, c)
    ensures Leased(Do(q, step), w, c)
  {
    StepInv(q, step);
    OutsideLeavesRow(q, step, w, c);
    forall v ensures Outdated(Do(q, step), c, v) { OutsideOutdated(q, step, w, c, v); }
  }

  lemma {:induction false} LeaseExcludes<P>(q: Queue<P>, steps: seq<Step<P>>, w: nat, c: Lease<P>)
    requires Leased(q, w, c)
    requires forall i :: 0 <= i < |steps| ==> Outside(steps[i], w, c)
    ensures Leased(Run(q, steps), w, c)
    ensures forall f: nat :: (c.id, f) in Run(q, steps).grants ==> (c.id, f) in q.grants
    decreases |steps|
  {
    if steps != [] {
      OutsideLeavesRow(q, steps[0], w, c);
      OutsideKeeps(q, steps[0], w, c);
      LeaseExcludes(Do(q, steps[0]), steps[1..], w, c);
    }
  }

  lemma GrantLeases<P>(q: Queue<P>, w: nat, owner: string, now: real, lease: real)
    requires Inv(q) && w in q.polled && q.polled[w] != []
    requires TryClaim(q.table, q.polled[w][0].0, q.polled[w][0].1, owner, now, lease).1.Some?
    ensures var c := TryClaim(q.table, q.polled[w][0].0, q.polled[w][0].1, owner, now, lease).1.value;
      Leased(Do(q, TryNext(w, owner, now, lease)), w, c)
  {
    var q' := Do(q, TryNext(w, owner, now, lease));
    assert PolledOk(q, w);
    TryClaimKeeps(q.table, q.polled[w][0].0, q.polled[w][0].1, owner, now, lease);
    StepInv(q, TryNext(w, owner, now, lease));
    forall v ensures Outdated(q', q'.held[w], v) {
      assert PolledOk(q, v);
    }
  }

  /**
   Mutual exclusion in time: after a claim granted at `now` for `lease`, whatever the other workers do
   in polls at readings before `now + lease`, nobody is granted that message, its row stays exactly as
   claimed, and its holder passes the lease check at a reading if and only if that is before the end.
   */
  lemma LeaseIsExclusive<P>(q: Queue<P>, w: nat, owner: string, now: real, lease: real, steps: seq<Step<P>>)
    requires Inv(q) && w in q.polled && q.polled[w] != []
    requires TryClaim(q.table, q.polled[w][0].0, q.polled[w][0].1, owner, now, lease).1.Some?
    requires var c := Do(q, TryNext(w, owner, now, lease)).held[w];
      forall i :: 0 <= i < |steps| ==> Outside(steps[i], w, c)
    ensures var q' := Do(q, TryNext(w, owner, now, lease)); var c := q'.held[w]; var end := Run(q', steps);
      && c.id == q.polled[w][0].0 && c.row.leaseUntil - now == lease
      && c.id in end.table && end.table[c.id] == c.row
      && (forall f: nat :: (c.id, f) in end.grants ==> (c.id, f) in q'.grants)
      && (forall at :: Owned(end.table, c, at) <==> at < now + lease)
  {
    var q' := Do(q, TryNext(w, owner, now, lease));
    GrantLeases(q, w, owner, now, lease);
    LeaseExcludes(q', steps, w, q'.held[w]);
  }
}
