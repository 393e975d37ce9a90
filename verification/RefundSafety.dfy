/** The invariant of the refund protocol, its preservation by every step, and what it promises. */
module RefundSafety {
  import opened Wrappers
  import opened LeaseQueues
  import opened RefundTables
  import opened SandboxStores
  import opened RefundInvariant
  import opened RefundProtocol

  // ----- what workers and the network may rely on -----

  ghost predicate Remembers<P>(t: Table<P>, id: string, row: Row<P>)
  {
    id in t && Evolves(row, t[id])
  }

  /** A dispatcher's claim: its fence was granted to this worker and to nobody else. */
  ghost predicate Holds(s: System, w: nat, c: Lease<Command>)
  {
    && Remembers(s.local.outbox, c.id, c.row)
    && (c.id, c.row.fence) in s.grants
    && s.grants[(c.id, c.row.fence)] == w
  }

  ghost predicate Unsent(s: System, c: Lease<Command>)
  {
    forall q :: q in s.requests && q.message == c.id ==> q.fence != c.row.fence
  }

  /** The attempt of this claim has not been counted yet. */
  ghost predicate Uncounted(s: System, c: Lease<Command>)
  {
    c.id in s.local.outbox && c.row.aggregate in s.local.ops && s.local.outbox[c.id].fence == c.row.fence ==>
      s.local.ops[c.row.aggregate].attemptCount < s.local.outbox[c.id].attempt
  }

  ghost predicate Polled<P>(t: Table<P>, rows: seq<(string, Row<P>)>)
  {
    forall i :: 0 <= i < |rows| ==> Remembers(t, rows[i].0, rows[i].1) && rows[i].1.status != Sent
  }

  ghost predicate PolledRefunds(p: Store, rows: seq<(string, Refund)>)
  {
    forall i :: 0 <= i < |rows| ==>
      rows[i].0 in p.refunds && RefundEvolves(rows[i].1, p.refunds[rows[i].0]) && rows[i].1.status == InProgress
  }

  ghost predicate StateOk(s: System, w: nat, state: Worker)
  {
    match state
    case Idle => true
    case Polling(rows) => Polled(s.local.outbox, rows)
    case Marking(c) => Holds(s, w, c) && Unsent(s, c) && Uncounted(s, c)
    case ClosingSettled(c) => Holds(s, w, c) && Covered(s.local, s.world, c.row.aggregate)
    case CheckingBefore(c) => Holds(s, w, c) && Unsent(s, c)
    case Sending(c) => Holds(s, w, c) && Unsent(s, c)
    case Waiting(c) => Holds(s, w, c)
    case CheckingAfter(c, r) => Holds(s, w, c) && r in s.world.issued && r.command == c.row.payload
    case Applying(c, r) => Holds(s, w, c) && r in s.world.issued && r.command == c.row.payload
    case ClosingAccepted(c) => Holds(s, w, c) && Covered(s.local, s.world, c.row.aggregate)
    case Doubting(c, code) => Holds(s, w, c) && code != ""
    case ClosingFailed(c, code) => Holds(s, w, c) && code != ""
    case Escalating(id, code) => id in s.local.ops
    case PollingJobs(rows) => Polled(s.local.jobs, rows)
    case Sweeping(ids) => forall i :: 0 <= i < |ids| ==> ids[i] in s.local.ops
    case Querying(j) => Remembers(s.local.jobs, j.id, j.row)
    case CheckingJob(j, a) => Remembers(s.local.jobs, j.id, j.row) && (a.Some? ==> a.value in s.world.issued)
    case ApplyingJob(j, r) => Remembers(s.local.jobs, j.id, j.row) && r in s.world.issued
    case ClosingJob(j, code, delay, escalation) => Remembers(s.local.jobs, j.id, j.row) && code != ""
    case PollingRefunds(rows) => PolledRefunds(s.world.store, rows)
  }

  ghost predicate WorkerOk(s: System, w: nat)
  {
    StateOk(s, w, At(s, w))
  }

  ghost predicate RequestOk(s: System, q: Request)
  {
    && q.message in s.local.outbox
    && 1 <= q.fence <= s.local.outbox[q.message].fence
    && q.command == s.local.outbox[q.message].payload
  }

  ghost predicate NetOk(s: System)
  {
    && (forall q {:trigger RequestOk(s, q)} :: q in s.requests ==> RequestOk(s, q))
    && (forall p {:trigger p in s.replies} :: p in s.replies ==>
          p.1 in s.world.issued && p.1.command == p.0.command)
    && (forall m, f: nat {:trigger (m, f) in s.grants} :: (m, f) in s.grants ==>
          m in s.local.outbox && 1 <= f <= s.local.outbox[m].fence)
  }

  ghost predicate SysInv(s: System)
  {
    && WorldOk(s.world)
    && LocalOk(s.local, s.world)
    && Complete(s.local)
    && NetOk(s)
    && (forall w {:trigger WorkerOk(s, w)} :: WorkerOk(s, w))
  }

  // ----- interference: what one step may do to everybody else -----

  ghost predicate Moves(s: System, s': System)
  {
    && Grows(s.local, s'.local)
    && WorldGrows(s.world, s'.world)
    && (forall g :: g in s.grants ==> g in s'.grants && s'.grants[g] == s.grants[g])
    && s.requests <= s'.requests
    && s.replies <= s'.replies
  }

  /** New requests come from the worker that holds the claim they name. */
  ghost predicate SentBy(s: System, s': System, actor: nat)
  {
    forall q :: q in s'.requests && q !in s.requests ==>
      (q.message, q.fence) in s'.grants && s'.grants[(q.message, q.fence)] == actor
  }

  ghost predicate CountsSame(s: System, s': System)
  {
    forall id :: id in s.local.ops && id in s'.local.ops ==> s'.local.ops[id].attemptCount == s.local.ops[id].attemptCount
  }

  lemma CoveredStable(s: System, s': System, id: string)
    requires Moves(s, s') && LocalOk(s'.local, s'.world) && WorldOk(s'.world)
    requires Covered(s.local, s.world, id)
    ensures Covered(s'.local, s'.world, id)
  {
    assert OpGrows(s.local.ops[id], s'.local.ops[id]);
    assert OpOk(s'.local, s'.world, id);
    if s'.local.ops[id].providerVersion > 0 {
      assert IssuedOk(s'.world, s'.local.ops[id].result.value);
    }
  }

  lemma RemembersStable<P>(t: Table<P>, t': Table<P>, id: string, row: Row<P>)
    requires Remembers(t, id, row) && TableEvolves(t, t')
    ensures Remembers(t', id, row)
  {
    EvolvesTransitive(row, t[id], t'[id]);
  }

  lemma HoldsStable(s: System, s': System, w: nat, c: Lease<Command>)
    requires Moves(s, s') && Holds(s, w, c)
    ensures Holds(s', w, c)
  {
    RemembersStable(s.local.outbox, s'.local.outbox, c.id, c.row);
  }

  lemma UnsentStable(s: System, s': System, w: nat, c: Lease<Command>, actor: nat)
    requires Moves(s, s') && Holds(s, w, c) && Unsent(s, c) && SentBy(s, s', actor)
    requires w != actor || s'.requests == s.requests
    ensures Unsent(s', c)
  {
    forall q | q in s'.requests && q.message == c.id ensures q.fence != c.row.fence {}
  }

  lemma UncountedStable(s: System, s': System, w: nat, c: Lease<Command>)
    requires SysInv(s) && Moves(s, s') && LocalOk(s'.local, s'.world)
    requires Holds(s, w, c) && Uncounted(s, c)
    requires CountsSame(s, s')
    ensures Uncounted(s', c)
  {
    QueuesOk(s.local, s.world);
    QueuesOk(s'.local, s'.world);
    assert OutboxRowOk(s.local, s.world, s.local.outbox[c.id]);
    assert OutboxRowOk(s'.local, s'.world, s'.local.outbox[c.id]);
    assert Evolves(s.local.outbox[c.id], s'.local.outbox[c.id]);
    assert Evolves(c.row, s.local.outbox[c.id]);
  }

  lemma PolledStable<P>(t: Table<P>, t': Table<P>, rows: seq<(string, Row<P>)>)
    requires Polled(t, rows) && TableEvolves(t, t')
    ensures Polled(t', rows)
  {
    forall i | 0 <= i < |rows| ensures Remembers(t', rows[i].0, rows[i].1) {
      RemembersStable(t, t', rows[i].0, rows[i].1);
    }
  }

  lemma PolledRefundsStable(p: Store, p': Store, rows: seq<(string, Refund)>)
    requires PolledRefunds(p, rows) && StoreEvolves(p, p')
    ensures PolledRefunds(p', rows)
  {
    forall i | 0 <= i < |rows| ensures rows[i].0 in p'.refunds && RefundEvolves(rows[i].1, p'.refunds[rows[i].0]) {
      assert RefundEvolves(p.refunds[rows[i].0], p'.refunds[rows[i].0]);
    }
  }

  /** Whatever a worker remembers survives a step of somebody else. */
  lemma StateStable(s: System, s': System, w: nat, state: Worker, actor: nat)
    requires SysInv(s) && Moves(s, s') && WorldOk(s'.world) && LocalOk(s'.local, s'.world)
    requires SentBy(s, s', actor)
    requires w != actor || s'.requests == s.requests
    requires StateOk(s, w, state)
    requires state.Marking? ==> CountsSame(s, s') || Uncounted(s', state.claim)
    ensures StateOk(s', w, state)
  {
    match state
    case Idle =>
    case Polling(rows) => PolledStable(s.local.outbox, s'.local.outbox, rows);
    case Marking(c) =>
      HoldsStable(s, s', w, c);
      UnsentStable(s, s', w, c, actor);
      if CountsSame(s, s') { UncountedStable(s, s', w, c); }
    case ClosingSettled(c) => HoldsStable(s, s', w, c); CoveredStable(s, s', c.row.aggregate);
    case CheckingBefore(c) => HoldsStable(s, s', w, c); UnsentStable(s, s', w, c, actor);
    case Sending(c) => HoldsStable(s, s', w, c); UnsentStable(s, s', w, c, actor);
    case Waiting(c) => HoldsStable(s, s', w, c);
    case CheckingAfter(c, r) => HoldsStable(s, s', w, c);
    case Applying(c, r) => HoldsStable(s, s', w, c);
    case ClosingAccepted(c) => HoldsStable(s, s', w, c); CoveredStable(s, s', c.row.aggregate);
    case Doubting(c, code) => HoldsStable(s, s', w, c);
    case ClosingFailed(c, code) => HoldsStable(s, s', w, c);
    case Escalating(id, code) =>
    case PollingJobs(rows) => PolledStable(s.local.jobs, s'.local.jobs, rows);
    case Sweeping(ids) =>
    case Querying(j) => RemembersStable(s.local.jobs, s'.local.jobs, j.id, j.row);
    case CheckingJob(j, a) => RemembersStable(s.local.jobs, s'.local.jobs, j.id, j.row);
    case ApplyingJob(j, r) => RemembersStable(s.local.jobs, s'.local.jobs, j.id, j.row);
    case ClosingJob(j, code, delay, escalation) => RemembersStable(s.local.jobs, s'.local.jobs, j.id, j.row);
    case PollingRefunds(rows) => PolledRefundsStable(s.world.store, s'.world.store, rows);
  }

  lemma NetStable(s: System, s': System)
    requires NetOk(s) && Moves(s, s')
    requires s'.requests == s.requests && s'.replies == s.replies && s'.grants == s.grants
    ensures NetOk(s')
  {
    forall q | q in s'.requests ensures RequestOk(s', q) {
      assert RequestOk(s, q);
      assert Evolves(s.local.outbox[q.message], s'.local.outbox[q.message]);
    }
    forall m, f: nat | (m, f) in s'.grants ensures m in s'.local.outbox && 1 <= f <= s'.local.outbox[m].fence {
      assert (m, f) in s.grants;
      assert Evolves(s.local.outbox[m], s'.local.outbox[m]);
    }
  }

  lemma WorldSame(w: World)
    ensures WorldGrows(w, w)
  {}

  lemma GrowsSame(l: Tables)
    ensures Grows(l, l)
  {}

  /** A transaction of one worker that neither sends nor receives anything. */
  ghost predicate Tx(s: System, s': System)
  {
    && s' == s.(local := s'.local, workers := s'.workers)
    && LocalOk(s'.local, s.world)
    && Grows(s.local, s'.local)
    && s'.local.ops.Keys == s.local.ops.Keys
    && CountsSame(s, s')
  }

  lemma TxMoves(s: System, s': System)
    requires Tx(s, s')
    ensures Moves(s, s') && SentBy(s, s', 0) && s'.world == s.world && s'.requests == s.requests
  {}

  /** Such a step keeps the invariant when the worker's next local state is justified. */
  lemma WorkerStep(s: System, s': System, actor: nat)
    requires SysInv(s) && Tx(s, s')
    requires forall w :: w != actor ==> At(s', w) == At(s, w)
    requires StateOk(s', actor, At(s', actor))
    ensures SysInv(s') && Grows(s.local, s'.local)
  {
    TxMoves(s, s');
    NetStable(s, s');
    GrowsComplete(s.local, s'.local);
    forall w ensures WorkerOk(s', w) {
      if w != actor {
        assert WorkerOk(s, w);
        StateStable(s, s', w, At(s, w), 0);
      }
    }
  }

  /** The same for a step that touches only local variables of the actor. */
  lemma LocalStep(s: System, s': System, actor: nat)
    requires SysInv(s)
    requires s' == s.(workers := s'.workers)
    requires forall w :: w != actor ==> At(s', w) == At(s, w)
    requires StateOk(s', actor, At(s', actor))
    ensures SysInv(s') && Grows(s.local, s'.local)
  {
    GrowsSame(s.local);
    WorkerStep(s, s', actor);
  }

  /** What the actor remembered before its transaction it may still rely on afterwards. */
  lemma Keep(s: System, s': System, actor: nat, state: Worker)
    requires SysInv(s) && StateOk(s, actor, state) && Tx(s, s')
    ensures StateOk(s', actor, state)
  {
    TxMoves(s, s');
    StateStable(s, s', actor, state, 0);
  }

  // ----- the transactions of the workers -----

  lemma OutboxClaimTx(s: System, s': System, id: string, stale: Row<Command>, owner: string, now: real, lease: real)
    requires SysInv(s) && Remembers(s.local.outbox, id, stale) && stale.status != Sent
    requires s' == s.(local := s.local.(outbox := TryClaim(s.local.outbox, id, stale, owner, now, lease).0), workers := s'.workers)
    ensures Tx(s, s')
  {
    ClaimOutboxKeeps(s.local, s.world, id, stale, owner, now, lease);
  }

  lemma JobClaimTx(s: System, s': System, id: string, stale: Row<string>, owner: string, now: real, lease: real)
    requires SysInv(s) && Remembers(s.local.jobs, id, stale) && stale.status != Sent
    requires s' == s.(local := s.local.(jobs := TryClaim(s.local.jobs, id, stale, owner, now, lease).0), workers := s'.workers)
    ensures Tx(s, s')
    ensures var claim := TryClaim(s.local.jobs, id, stale, owner, now, lease).1;
      claim.Some? ==> Remembers(s'.local.jobs, claim.value.id, claim.value.row)
  {
    ClaimJobsKeeps(s.local, s.world, id, stale, owner, now, lease);
    QueuesOk(s.local, s.world);
    TryClaimKeeps(s.local.jobs, id, stale, owner, now, lease);
  }

  lemma OutboxFinishTx(s: System, s': System, c: Lease<Command>, error: string, checked: real, now: real)
    requires SysInv(s) && Remembers(s.local.outbox, c.id, c.row)
    requires error == "" ==> Covered(s.local, s.world, c.row.aggregate)
    requires s' == s.(local := s.local.(outbox := FinishLease(s.local.outbox, c, error, None, checked, now).0), workers := s'.workers)
    ensures Tx(s, s')
    ensures c.row.aggregate in s'.local.ops
  {
    FinishOutboxKeeps(s.local, s.world, c, error, None, checked, now);
    assert OutboxRowOk(s.local, s.world, s.local.outbox[c.id]);
  }

  lemma JobFinishTx(s: System, s': System, j: Lease<string>, error: string, delay: Option<real>, checked: real, now: real)
    requires SysInv(s) && Remembers(s.local.jobs, j.id, j.row) && error != ""
    requires s' == s.(local := s.local.(jobs := FinishLease(s.local.jobs, j, error, delay, checked, now).0), workers := s'.workers)
    ensures Tx(s, s')
    ensures j.row.aggregate in s'.local.ops
  {
    FinishJobsKeeps(s.local, s.world, j, error, delay, checked, now);
    assert JobRowOk(s.local, j.id, s.local.jobs[j.id]);
  }

  lemma UnknownFrame(l: Tables, id: string, code: string, manual: bool, guard: Option<(Lease<Command>, real)>)
    requires id in l.ops
    ensures var l' := MarkUnknownTx(l, id, code, manual, guard).0;
      l' == l.(ops := l'.ops) && l'.ops.Keys == l.ops.Keys
  {}

  lemma UnknownTx(s: System, s': System, id: string, code: string, manual: bool, guard: Option<(Lease<Command>, real)>)
    requires SysInv(s) && id in s.local.ops
    requires s' == s.(local := MarkUnknownTx(s.local, id, code, manual, guard).0, workers := s'.workers)
    ensures Tx(s, s')
  {
    UnknownFrame(s.local, id, code, manual, guard);
    MarkUnknownKeeps(s.local, s.world, id, code, manual, guard);
  }

  lemma ReceiptTx(s: System, s': System, r: Receipt, eventId: string, digest: Digest)
    requires SysInv(s) && r in s.world.issued
    requires s' == s.(local := ApplyReceiptTx(s.local, r, eventId, digest).0, workers := s'.workers)
    ensures Tx(s, s')
    ensures ApplyReceiptTx(s.local, r, eventId, digest).1.Done? ==> r.command.key in s.world.store.refunds
  {
    ApplyReceiptKeeps(s.local, s.world, r, eventId, digest);
    ApplyReceiptFrame(s.local, r, eventId, digest);
  }
}
