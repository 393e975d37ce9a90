/**
 What every transaction of the refund workflow keeps, given a provider that behaves like the
 sandbox: the five tables stay coupled to one another and to the receipts the provider issued,
 and every row only moves forwards.
 */
module RefundInvariant {
  import opened Wrappers
  import opened LeaseQueues
  import opened RefundTables
  import opened SandboxStores

  /** The provider's database together with every receipt it has ever handed out. */
  datatype World = World(store: Store, issued: set<Receipt>)

  ghost predicate IssuedOk(w: World, r: Receipt)
  {
    && r.command.key in w.store.refunds
    && var row := w.store.refunds[r.command.key];
    && r.command == row.command
    && r.provider == PROVIDER
    && r.refundId == row.receipt.refundId
    && r.amountCents == row.receipt.amountCents
    && 1 <= r.version <= row.version
    && (r.version == row.version ==> r == row.receipt)
    && (Terminal(r) ==> r == row.receipt)
  }

  ghost predicate WorldOk(w: World)
  {
    && StoreOk(w.store)
    && (forall r {:trigger IssuedOk(w, r)} :: r in w.issued ==> IssuedOk(w, r))
    && (forall k :: k in w.store.refunds ==> w.store.refunds[k].receipt in w.issued)
    && (forall e :: e in w.store.events ==> w.store.events[e].receipt in w.issued)
  }

  ghost predicate WorldGrows(w: World, w': World)
  {
    StoreEvolves(w.store, w'.store) && w.issued <= w'.issued
  }

  /** The provider already has the refund, or a human has to look at it. */
  ghost predicate Covered(l: Tables, w: World, id: string)
  {
    id in l.ops && (l.ops[id].status == OpNeedsReconciliation || l.ops[id].request.key in w.store.refunds)
  }

  /** The operation repeats the newest receipt it has accepted, and its status is that receipt's if it is final. */
  ghost predicate Reflects(o: Operation, issued: set<Receipt>)
  {
    if o.providerVersion == 0 then o.result.None? && o.providerReference == "" && !Final(o.status)
    else
      && o.result.Some?
      && o.result.value in issued
      && o.result.value.command == o.request
      && o.result.value.version == o.providerVersion
      && o.result.value.refundId == o.providerReference
      && (if Terminal(o.result.value) then o.status == StatusOf(o.result.value) else !Final(o.status))
  }

  ghost predicate OpOk(l: Tables, w: World, id: string)
    requires id in l.ops
  {
    var o := l.ops[id];
    && o.request.key == o.key
    && o.request.operationId == id
    && o.provider == PROVIDER
    && o.caseId in l.cases
    && l.cases[o.caseId].userId == o.userId
    && l.cases[o.caseId].status == CaseStatusOf(o.status)
    && (o.result.Some? ==> l.cases[o.caseId].result == o.result && o.result.value.amountCents == l.cases[o.caseId].amountCents)
    && Reflects(o, w.issued)
  }

  ghost predicate OutboxRowOk(l: Tables, w: World, row: Row<Command>)
  {
    && RowOk(row)
    && row.maxAttempts == 8
    && row.aggregate in l.ops
    && row.payload == l.ops[row.aggregate].request
    && l.ops[row.aggregate].attemptCount <= row.attempt
    && (Final(l.ops[row.aggregate].status) ==> row.status == Sent)
    && (row.status == Sent ==> Covered(l, w, row.aggregate))
  }

  ghost predicate JobRowOk(l: Tables, id: string, row: Row<string>)
  {
    && RowOk(row)
    && row.aggregate == id
    && id in l.ops
    && row.payload == l.ops[id].key
    && (row.status == Sent <==> Final(l.ops[id].status))
  }

  ghost predicate OneCaseEach(ops: map<string, Operation>)
  {
    forall a, b :: SameCase(ops, a, b) ==> a == b
  }

  ghost predicate SameCase(ops: map<string, Operation>, a: string, b: string)
  {
    a in ops && b in ops && ops[a].caseId == ops[b].caseId
  }

  ghost predicate OneMessageEach(outbox: Table<Command>)
  {
    forall m, n :: SameAggregate(outbox, m, n) ==> m == n
  }

  ghost predicate SameAggregate(outbox: Table<Command>, m: string, n: string)
  {
    m in outbox && n in outbox && outbox[m].aggregate == outbox[n].aggregate
  }

  ghost predicate HasMessage(outbox: Table<Command>, id: string)
  {
    exists m :: m in outbox && outbox[m].aggregate == id
  }

  ghost predicate LocalOk(l: Tables, w: World)
  {
    && UniqueKeys(l.ops)
    && OneCaseEach(l.ops)
    && OneMessageEach(l.outbox)
    && (forall id {:trigger OpOk(l, w, id)} :: id in l.ops ==> OpOk(l, w, id))
    && (forall m {:trigger OutboxRowOk(l, w, l.outbox[m])} :: m in l.outbox ==> OutboxRowOk(l, w, l.outbox[m]))
    && (forall j {:trigger JobRowOk(l, j, l.jobs[j])} :: j in l.jobs ==> JobRowOk(l, j, l.jobs[j]))
  }

  /** Every operation has its submit message and its reconciliation job. */
  ghost predicate Complete(l: Tables)
  {
    forall id :: id in l.ops ==> id in l.jobs && HasMessage(l.outbox, id)
  }

  // ----- progress of the local tables -----

  ghost predicate OpGrows(a: Operation, b: Operation)
  {
    && b.key == a.key && b.caseId == a.caseId && b.userId == a.userId && b.request == a.request
    && a.version <= b.version
    && a.attemptCount <= b.attemptCount
    && a.providerVersion <= b.providerVersion
    && (a.status == OpNeedsReconciliation && b.status != OpNeedsReconciliation ==> b.providerVersion > 0)
    && (Final(a.status) ==> b == a)
  }

  ghost predicate Grows(l: Tables, l': Tables)
  {
    && (forall id :: id in l.ops ==> id in l'.ops && OpGrows(l.ops[id], l'.ops[id]))
    && TableEvolves(l.outbox, l'.outbox)
    && TableEvolves(l.jobs, l'.jobs)
  }

  lemma GrowsTransitive(a: Tables, b: Tables, c: Tables)
    requires Grows(a, b) && Grows(b, c)
    ensures Grows(a, c)
  {
    TableEvolvesTransitive(a.outbox, b.outbox, c.outbox);
    TableEvolvesTransitive(a.jobs, b.jobs, c.jobs);
    forall id | id in a.ops ensures id in c.ops && OpGrows(a.ops[id], c.ops[id]) {
      assert OpGrows(a.ops[id], b.ops[id]) && OpGrows(b.ops[id], c.ops[id]);
    }
  }

  lemma FindFinds(ops: map<string, Operation>, id: string)
    requires UniqueKeys(ops) && id in ops
    ensures FindByKey(ops, ops[id].key) == Some(id)
  {
    assert HasKey(ops, id, ops[id].key);
    assert SameKey(ops, id, FindByKey(ops, ops[id].key).value);
  }

  /** A world that only grows does not disturb the local tables. */
  lemma LocalStable(l: Tables, w: World, w': World)
    requires LocalOk(l, w) && WorldGrows(w, w')
    ensures LocalOk(l, w')
  {
    forall id | id in l.ops ensures OpOk(l, w', id) {
      assert OpOk(l, w, id);
    }
    forall m | m in l.outbox ensures OutboxRowOk(l, w', l.outbox[m]) {
      assert OutboxRowOk(l, w, l.outbox[m]);
    }
  }

  /** One operation is replaced and keeps its identity; the other tables stay as they are. */
  ghost predicate WritesOp(l: Tables, l': Tables, id: string)
  {
    && id in l.ops && id in l'.ops
    && l'.ops == l.ops[id := l'.ops[id]]
    && l'.cases == l.cases && l'.outbox == l.outbox && l'.jobs == l.jobs
    && OpGrows(l.ops[id], l'.ops[id])
    && Final(l'.ops[id].status) == Final(l.ops[id].status)
    && (l.ops[id].status == OpNeedsReconciliation ==> l'.ops[id].status == OpNeedsReconciliation)
  }

  lemma OpWriteUnique(l: Tables, l': Tables, id: string)
    requires UniqueKeys(l.ops) && OneCaseEach(l.ops) && WritesOp(l, l', id)
    ensures UniqueKeys(l'.ops) && OneCaseEach(l'.ops) && Grows(l, l')
  {
    forall a, b | SameKey(l'.ops, a, b) ensures a == b { assert SameKey(l.ops, a, b); }
    forall a, b | SameCase(l'.ops, a, b) ensures a == b { assert SameCase(l.ops, a, b); }
  }

  lemma OpWriteKeeps(l: Tables, l': Tables, w: World, id: string)
    requires LocalOk(l, w)
    requires WritesOp(l, l', id) && OpOk(l', w, id)
    requires forall m :: m in l.outbox && l.outbox[m].aggregate == id ==> l'.ops[id].attemptCount <= l.outbox[m].attempt
    ensures LocalOk(l', w) && Grows(l, l')
  {
    OpWriteUnique(l, l', id);
    forall other | other in l'.ops ensures OpOk(l', w, other) {
      assert OpOk(l, w, other);
    }
    forall m | m in l'.outbox ensures OutboxRowOk(l', w, l'.outbox[m]) {
      assert OutboxRowOk(l, w, l.outbox[m]);
    }
    forall j | j in l'.jobs ensures JobRowOk(l', j, l'.jobs[j]) {
      assert JobRowOk(l, j, l.jobs[j]);
    }
  }

  lemma MarkAttemptKeeps(l: Tables, w: World, id: string, guard: Option<(Lease<Command>, real)>)
    requires LocalOk(l, w)
    requires id in l.ops
    requires forall m :: m in l.outbox && l.outbox[m].aggregate == id && Guarded(l, guard)
               ==> l.ops[id].attemptCount < l.outbox[m].attempt
    ensures LocalOk(MarkAttemptTx(l, id, guard).0, w) && Grows(l, MarkAttemptTx(l, id, guard).0)
  {
    var l' := MarkAttemptTx(l, id, guard).0;
    assert OpOk(l, w, id);
    if l' != l {
      assert OpOk(l', w, id);
      OpWriteKeeps(l, l', w, id);
    }
  }

  lemma MarkUnknownKeeps(l: Tables, w: World, id: string, code: string, manual: bool, guard: Option<(Lease<Command>, real)>)
    requires LocalOk(l, w)
    requires id in l.ops
    ensures LocalOk(MarkUnknownTx(l, id, code, manual, guard).0, w)
    ensures Grows(l, MarkUnknownTx(l, id, code, manual, guard).0)
  {
    var l' := MarkUnknownTx(l, id, code, manual, guard).0;
    assert OpOk(l, w, id);
    if l' != l {
      assert OpOk(l', w, id);
      forall m | m in l.outbox && l.outbox[m].aggregate == id ensures l'.ops[id].attemptCount <= l.outbox[m].attempt {
        assert OutboxRowOk(l, w, l.outbox[m]);
      }
      OpWriteKeeps(l, l', w, id);
    }
  }

  /** A queue update that leaves `Sent` alone; used for claims, finishes and reopenings. */
  lemma OutboxWriteKeeps(l: Tables, outbox: Table<Command>, w: World)
    requires LocalOk(l, w)
    requires TableOk(outbox) && TableEvolves(l.outbox, outbox) && outbox.Keys == l.outbox.Keys
    requires forall m :: m in outbox ==>
      && outbox[m].maxAttempts == l.outbox[m].maxAttempts
      && l.outbox[m].attempt <= outbox[m].attempt
      && (l.outbox[m].status == Sent ==> outbox[m].status == Sent)
      && (outbox[m].status == Sent && l.outbox[m].status != Sent ==> Covered(l, w, outbox[m].aggregate))
    ensures LocalOk(l.(outbox := outbox), w) && Grows(l, l.(outbox := outbox))
  {
    var l' := l.(outbox := outbox);
    forall m | m in outbox ensures OutboxRowOk(l', w, outbox[m]) {
      assert OutboxRowOk(l, w, l.outbox[m]);
    }
    forall id | id in l'.ops ensures OpOk(l', w, id) { assert OpOk(l, w, id); }
    forall j | j in l'.jobs ensures JobRowOk(l', j, l'.jobs[j]) { assert JobRowOk(l, j, l.jobs[j]); }
    forall m, n | SameAggregate(outbox, m, n) ensures m == n { assert SameAggregate(l.outbox, m, n); }
  }

  lemma JobsWriteKeeps(l: Tables, jobs: Table<string>, w: World)
    requires LocalOk(l, w)
    requires TableOk(jobs) && TableEvolves(l.jobs, jobs) && jobs.Keys == l.jobs.Keys
    requires forall j :: j in jobs ==> (jobs[j].status == Sent <==> l.jobs[j].status == Sent)
    ensures LocalOk(l.(jobs := jobs), w) && Grows(l, l.(jobs := jobs))
  {
    var l' := l.(jobs := jobs);
    forall j | j in jobs ensures JobRowOk(l', j, jobs[j]) { assert JobRowOk(l, j, l.jobs[j]); }
    forall id | id in l'.ops ensures OpOk(l', w, id) { assert OpOk(l, w, id); }
    forall m | m in l'.outbox ensures OutboxRowOk(l', w, l'.outbox[m]) { assert OutboxRowOk(l, w, l.outbox[m]); }
  }

  lemma QueuesOk(l: Tables, w: World)
    requires LocalOk(l, w)
    ensures TableOk(l.outbox) && TableOk(l.jobs)
  {
    forall m | m in l.outbox ensures RowOk(l.outbox[m]) { assert OutboxRowOk(l, w, l.outbox[m]); }
    forall j | j in l.jobs ensures RowOk(l.jobs[j]) { assert JobRowOk(l, j, l.jobs[j]); }
  }

  lemma ClaimOutboxKeeps(l: Tables, w: World, id: string, stale: Row<Command>, owner: string, now: real, lease: real)
    requires LocalOk(l, w)
    requires id in l.outbox ==> Evolves(stale, l.outbox[id])
    requires stale.status != Sent
    ensures var l' := l.(outbox := TryClaim(l.outbox, id, stale, owner, now, lease).0);
      LocalOk(l', w) && Grows(l, l')
  {
    QueuesOk(l, w);
    TryClaimKeeps(l.outbox, id, stale, owner, now, lease);
    OutboxWriteKeeps(l, TryClaim(l.outbox, id, stale, owner, now, lease).0, w);
  }

  lemma ClaimJobsKeeps(l: Tables, w: World, id: string, stale: Row<string>, owner: string, now: real, lease: real)
    requires LocalOk(l, w)
    requires id in l.jobs ==> Evolves(stale, l.jobs[id])
    requires stale.status != Sent
    ensures var l' := l.(jobs := TryClaim(l.jobs, id, stale, owner, now, lease).0);
      LocalOk(l', w) && Grows(l, l')
  {
    QueuesOk(l, w);
    TryClaimKeeps(l.jobs, id, stale, owner, now, lease);
    JobsWriteKeeps(l, TryClaim(l.jobs, id, stale, owner, now, lease).0, w);
  }

  lemma FinishOutboxKeeps(l: Tables, w: World, claim: Lease<Command>, error: string, delay: Option<real>, checked: real, now: real)
    requires LocalOk(l, w)
    requires claim.id in l.outbox && Evolves(claim.row, l.outbox[claim.id])
    requires error == "" && delay.None? ==> Covered(l, w, claim.row.aggregate)
    ensures var l' := l.(outbox := FinishLease(l.outbox, claim, error, delay, checked, now).0);
      LocalOk(l', w) && Grows(l, l')
  {
    QueuesOk(l, w);
    FinishKeeps(l.outbox, claim, error, delay, checked, now);
    OutboxWriteKeeps(l, FinishLease(l.outbox, claim, error, delay, checked, now).0, w);
  }

  lemma FinishJobsKeeps(l: Tables, w: World, claim: Lease<string>, error: string, delay: Option<real>, checked: real, now: real)
    requires LocalOk(l, w)
    requires claim.id in l.jobs && Evolves(claim.row, l.jobs[claim.id])
    requires error != "" || delay.Some?
    ensures var l' := l.(jobs := FinishLease(l.jobs, claim, error, delay, checked, now).0);
      LocalOk(l', w) && Grows(l, l')
  {
    QueuesOk(l, w);
    FinishKeeps(l.jobs, claim, error, delay, checked, now);
    JobsWriteKeeps(l, FinishLease(l.jobs, claim, error, delay, checked, now).0, w);
  }

  lemma RequeueKeeps(l: Tables, w: World, id: string, actor: string, now: real)
    requires LocalOk(l, w)
    ensures LocalOk(RequeueTx(l, id, actor, PROVIDER, now).0, w) && Grows(l, RequeueTx(l, id, actor, PROVIDER, now).0)
  {
    var l' := RequeueTx(l, id, actor, PROVIDER, now).0;
    if l' != l {
      var middle := l.(jobs := ReopenJobs(l.jobs, id, now));
      forall j | j in l.jobs ensures RowOk(middle.jobs[j]) && (middle.jobs[j].status == Sent <==> l.jobs[j].status == Sent) {
        assert JobRowOk(l, j, l.jobs[j]);
      }
      JobsWriteKeeps(l, middle.jobs, w);
      forall other | other in l'.ops ensures OpOk(l', w, other) { assert OpOk(middle, w, other); }
      forall j | j in l'.jobs ensures JobRowOk(l', j, l'.jobs[j]) { assert JobRowOk(middle, j, middle.jobs[j]); }
      forall m | m in l'.outbox ensures OutboxRowOk(l', w, l'.outbox[m]) { assert OutboxRowOk(middle, w, middle.outbox[m]); }
    }
  }

  // ----- enqueue -----

  /** The rows of one newly queued operation, next to everything that was there before. */
  ghost predicate Queues(l: Tables, l': Tables, t: Template, c: Case, actor: string, message: string, now: real)
  {
    var id := t.operationId;
    && id !in l.ops && message !in l.outbox && id !in l.jobs
    && t.caseId in l.cases && l.cases[t.caseId] == c && c.userId == t.userId
    && l'.ops == l.ops[id := NewOperation(t, c, PROVIDER)]
    && l'.cases == l.cases[t.caseId := SaveCase(c, Processing, RefundQueued(actor, id))]
    && l'.outbox == l.outbox[message := NewRow(id, NewOperation(t, c, PROVIDER).request, now, 8, 0.0)]
    && l'.jobs == l.jobs[id := NewRow(id, t.key, now, 12, 2.0)]
    && (forall other :: other in l.ops ==> l.ops[other].key != t.key && l.ops[other].caseId != t.caseId)
  }

  /** An approved case belongs to no operation yet, so the new one is the case's first and only. */
  lemma EnqueueCases(l: Tables, w: World, t: Template, actor: string, message: string, now: real)
    requires LocalOk(l, w)
    ensures var l' := EnqueueTx(l, t, actor, PROVIDER, message, now).0;
      l' == l || (t.caseId in l.cases && Queues(l, l', t, l.cases[t.caseId], actor, message, now))
  {
    var l' := EnqueueTx(l, t, actor, PROVIDER, message, now).0;
    if l' != l {
      forall other | other in l.ops ensures l.ops[other].key != t.key && l.ops[other].caseId != t.caseId {
        assert !HasKey(l.ops, other, t.key);
        assert OpOk(l, w, other);
      }
    }
  }

  lemma EnqueueOps(l: Tables, l': Tables, w: World, t: Template, c: Case, actor: string, message: string, now: real)
    requires LocalOk(l, w) && Queues(l, l', t, c, actor, message, now)
    ensures forall id {:trigger OpOk(l', w, id)} :: id in l'.ops ==> OpOk(l', w, id)
  {
    forall id | id in l'.ops ensures OpOk(l', w, id) {
      if id != t.operationId { assert OpOk(l, w, id); }
    }
  }

  lemma EnqueueRows(l: Tables, l': Tables, w: World, t: Template, c: Case, actor: string, message: string, now: real)
    requires LocalOk(l, w) && Queues(l, l', t, c, actor, message, now)
    ensures forall m {:trigger OutboxRowOk(l', w, l'.outbox[m])} :: m in l'.outbox ==> OutboxRowOk(l', w, l'.outbox[m])
    ensures forall j {:trigger JobRowOk(l', j, l'.jobs[j])} :: j in l'.jobs ==> JobRowOk(l', j, l'.jobs[j])
    ensures OneMessageEach(l'.outbox)
  {
    forall m | m in l'.outbox ensures OutboxRowOk(l', w, l'.outbox[m]) {
      if m != message { assert OutboxRowOk(l, w, l.outbox[m]); }
    }
    forall j | j in l'.jobs ensures JobRowOk(l', j, l'.jobs[j]) {
      if j != t.operationId { assert JobRowOk(l, j, l.jobs[j]); }
    }
    forall m, n | SameAggregate(l'.outbox, m, n) ensures m == n {
      if m in l.outbox { assert OutboxRowOk(l, w, l.outbox[m]); }
      if n in l.outbox { assert OutboxRowOk(l, w, l.outbox[n]); }
      if m in l.outbox && n in l.outbox { assert SameAggregate(l.outbox, m, n); }
    }
  }

  lemma EnqueueKeeps(l: Tables, w: World, t: Template, actor: string, message: string, now: real)
    requires LocalOk(l, w)
    ensures LocalOk(EnqueueTx(l, t, actor, PROVIDER, message, now).0, w)
    ensures Grows(l, EnqueueTx(l, t, actor, PROVIDER, message, now).0)
  {
    var l' := EnqueueTx(l, t, actor, PROVIDER, message, now).0;
    EnqueueCases(l, w, t, actor, message, now);
    if l' != l {
      EnqueueUnique(l, l', t.operationId);
      EnqueueOps(l, l', w, t, l.cases[t.caseId], actor, message, now);
      EnqueueRows(l, l', w, t, l.cases[t.caseId], actor, message, now);
    }
  }

  lemma EnqueueComplete(l: Tables, w: World, t: Template, actor: string, message: string, now: real)
    requires LocalOk(l, w) && Complete(l)
    ensures Complete(EnqueueTx(l, t, actor, PROVIDER, message, now).0)
  {
    var l' := EnqueueTx(l, t, actor, PROVIDER, message, now).0;
    EnqueueCases(l, w, t, actor, message, now);
    if l' != l {
      forall id | id in l'.ops ensures id in l'.jobs && HasMessage(l'.outbox, id) {
        if id == t.operationId {
          assert message in l'.outbox && l'.outbox[message].aggregate == id;
        } else {
          var m :| m in l.outbox && l.outbox[m].aggregate == id;
          assert m in l'.outbox && l'.outbox[m].aggregate == id;
        }
      }
    }
  }

  lemma GrowsComplete(l: Tables, l': Tables)
    requires Complete(l) && Grows(l, l') && l'.ops.Keys == l.ops.Keys
    ensures Complete(l')
  {
    forall id | id in l'.ops ensures id in l'.jobs && HasMessage(l'.outbox, id) {
      assert id in l.ops;
      var m :| m in l.outbox && l.outbox[m].aggregate == id;
      assert m in l'.outbox && l'.outbox[m].aggregate == id;
    }
  }

  lemma EnqueueUnique(l: Tables, l': Tables, id: string)
    requires UniqueKeys(l.ops) && OneCaseEach(l.ops)
    requires id !in l.ops && id in l'.ops && l'.ops == l.ops[id := l'.ops[id]]
    requires forall other :: other in l.ops ==> l.ops[other].key != l'.ops[id].key && l.ops[other].caseId != l'.ops[id].caseId
    ensures UniqueKeys(l'.ops) && OneCaseEach(l'.ops)
  {
    forall a, b | SameKey(l'.ops, a, b) && a != b ensures false { assert SameKey(l.ops, a, b); }
    forall a, b | SameCase(l'.ops, a, b) && a != b ensures false { assert SameCase(l.ops, a, b); }
  }

  // ----- receipts -----

  /** Only an operation that is still open can absorb a receipt of the sandbox. */
  lemma AbsorbsOpenOnly(l: Tables, w: World, id: string, r: Receipt)
    requires LocalOk(l, w) && WorldOk(w) && r in w.issued
    requires id in l.ops && l.ops[id].request == r.command && Absorbs(l.ops[id], r)
    ensures !Final(l.ops[id].status)
  {
    assert OpOk(l, w, id);
    assert IssuedOk(w, r);
    if l.ops[id].providerVersion > 0 {
      assert IssuedOk(w, l.ops[id].result.value);
    }
  }

  lemma AbsorbOps(l: Tables, w: World, id: string, r: Receipt, eventId: string)
    requires LocalOk(l, w) && WorldOk(w) && r in w.issued
    requires id in l.ops && l.ops[id].caseId in l.cases
    requires l.ops[id].request == r.command && Absorbs(l.ops[id], r) && !Final(l.ops[id].status)
    requires l.cases[l.ops[id].caseId].amountCents == r.amountCents
    ensures var l' := Absorb(l, id, r, eventId);
      UniqueKeys(l'.ops) && OneCaseEach(l'.ops) && forall other {:trigger OpOk(l', w, other)} :: other in l'.ops ==> OpOk(l', w, other)
  {
    var l' := Absorb(l, id, r, eventId);
    forall a, b | SameKey(l'.ops, a, b) ensures a == b { assert SameKey(l.ops, a, b); }
    forall a, b | SameCase(l'.ops, a, b) ensures a == b { assert SameCase(l.ops, a, b); }
    assert OpOk(l, w, id) && IssuedOk(w, r);
    forall other | other in l'.ops ensures OpOk(l', w, other) {
      assert OpOk(l, w, other);
      assert SameCase(l.ops, id, other) ==> id == other;
    }
  }

  lemma AbsorbRows(l: Tables, w: World, id: string, r: Receipt, eventId: string)
    requires LocalOk(l, w) && WorldOk(w) && r in w.issued
    requires id in l.ops && l.ops[id].caseId in l.cases
    requires l.ops[id].request == r.command && Absorbs(l.ops[id], r) && !Final(l.ops[id].status)
    ensures var l' := Absorb(l, id, r, eventId);
      && (forall m {:trigger OutboxRowOk(l', w, l'.outbox[m])} :: m in l'.outbox ==> OutboxRowOk(l', w, l'.outbox[m]))
      && (forall j {:trigger JobRowOk(l', j, l'.jobs[j])} :: j in l'.jobs ==> JobRowOk(l', j, l'.jobs[j]))
  {
    var l' := Absorb(l, id, r, eventId);
    assert IssuedOk(w, r);
    forall m | m in l'.outbox ensures OutboxRowOk(l', w, l'.outbox[m]) {
      assert OutboxRowOk(l, w, l.outbox[m]);
    }
    forall j | j in l'.jobs ensures JobRowOk(l', j, l'.jobs[j]) {
      assert JobRowOk(l, j, l.jobs[j]);
    }
  }

  lemma AbsorbGrows(l: Tables, w: World, id: string, r: Receipt, eventId: string)
    requires LocalOk(l, w)
    requires id in l.ops && l.ops[id].caseId in l.cases && Absorbs(l.ops[id], r) && !Final(l.ops[id].status)
    ensures Grows(l, Absorb(l, id, r, eventId)) && OneMessageEach(Absorb(l, id, r, eventId).outbox)
  {
    var l' := Absorb(l, id, r, eventId);
    QueuesOk(l, w);
    RetireAllKeeps(l.outbox, id);
    RetireAllKeeps(l.jobs, id);
    forall m, n | SameAggregate(l'.outbox, m, n) ensures m == n { assert SameAggregate(l.outbox, m, n); }
  }

  lemma AbsorbKeeps(l: Tables, w: World, id: string, r: Receipt, eventId: string)
    requires LocalOk(l, w) && WorldOk(w) && r in w.issued
    requires id in l.ops && l.ops[id].caseId in l.cases
    requires l.ops[id].request == r.command && Absorbs(l.ops[id], r)
    requires l.cases[l.ops[id].caseId].amountCents == r.amountCents
    ensures LocalOk(Absorb(l, id, r, eventId), w)
    ensures Grows(l, Absorb(l, id, r, eventId))
  {
    AbsorbsOpenOnly(l, w, id, r);
    AbsorbOps(l, w, id, r, eventId);
    AbsorbRows(l, w, id, r, eventId);
    AbsorbGrows(l, w, id, r, eventId);
  }

  lemma ApplyReceiptKeeps(l: Tables, w: World, r: Receipt, eventId: string, digest: Digest)
    requires LocalOk(l, w) && WorldOk(w) && r in w.issued
    ensures LocalOk(ApplyReceiptTx(l, r, eventId, digest).0, w)
    ensures Grows(l, ApplyReceiptTx(l, r, eventId, digest).0)
    ensures ApplyReceiptTx(l, r, eventId, digest).1.Done? ==> r.command.key in w.store.refunds
  {
    assert IssuedOk(w, r);
    var (l', answer) := ApplyReceiptTx(l, r, eventId, digest);
    if l' != l {
      var id := FindByKey(l.ops, r.command.key).value;
      if Absorbs(l.ops[id], r) {
        AbsorbKeeps(l, w, id, r, eventId);
        InboxWriteKeeps(Absorb(l, id, r, eventId), w, l'.inbox);
      } else {
        InboxWriteKeeps(l, w, l'.inbox);
      }
    }
  }

  lemma ApplyReceiptFrame(l: Tables, r: Receipt, eventId: string, digest: Digest)
    ensures var l' := ApplyReceiptTx(l, r, eventId, digest).0;
      && l'.ops.Keys == l.ops.Keys
      && (forall id :: id in l.ops ==> l'.ops[id].attemptCount == l.ops[id].attemptCount)
    ensures !ApplyReceiptTx(l, r, eventId, digest).1.Retry?
  {}

  lemma InboxWriteKeeps(l: Tables, w: World, inbox: map<(string, string), InboxRow>)
    requires LocalOk(l, w)
    ensures LocalOk(l.(inbox := inbox), w) && Grows(l, l.(inbox := inbox))
  {
    var l' := l.(inbox := inbox);
    forall id | id in l'.ops ensures OpOk(l', w, id) { assert OpOk(l, w, id); }
    forall m | m in l'.outbox ensures OutboxRowOk(l', w, l'.outbox[m]) { assert OutboxRowOk(l, w, l.outbox[m]); }
    forall j | j in l'.jobs ensures JobRowOk(l', j, l'.jobs[j]) { assert JobRowOk(l, j, l.jobs[j]); }
  }

  /**
   Why the reconciler may return on a terminal receipt without finishing its own job: once the
   receipt is in the inbox, the job has already been retired, whether the receipt was applied now
   or had been overtaken.
   */
  lemma TerminalReceiptRetiresJob(l: Tables, w: World, r: Receipt, eventId: string, digest: Digest, id: string)
    requires LocalOk(l, w) && WorldOk(w) && Complete(l)
    requires r in w.issued && Terminal(r)
    requires id in l.ops && l.ops[id].request == r.command
    requires ApplyReceiptTx(l, r, eventId, digest).1.Done?
    requires ApplyReceiptTx(l, r, eventId, digest).1.value.Accepted?
    ensures var l' := ApplyReceiptTx(l, r, eventId, digest).0;
      && l'.ops[id].status == StatusOf(r) && l'.ops[id].result == Some(r)
      && id in l'.jobs && l'.jobs[id].status == Sent
  {
    assert OpOk(l, w, id);
    FindFinds(l.ops, id);
    var l' := ApplyReceiptTx(l, r, eventId, digest).0;
    ReceiptReflected(l, w, r, id);
    ApplyReceiptKeeps(l, w, r, eventId, digest);
    assert id in l.jobs && id in l'.jobs;
    assert JobRowOk(l', id, l'.jobs[id]);
  }

  /** An operation that does not absorb a terminal receipt has absorbed exactly that receipt before. */
  lemma ReceiptReflected(l: Tables, w: World, r: Receipt, id: string)
    requires LocalOk(l, w) && WorldOk(w) && r in w.issued && Terminal(r)
    requires id in l.ops && l.ops[id].request == r.command
    ensures !Absorbs(l.ops[id], r) ==> l.ops[id].status == StatusOf(r) && l.ops[id].result == Some(r)
  {
    assert OpOk(l, w, id) && IssuedOk(w, r);
    if !Absorbs(l.ops[id], r) {
      assert IssuedOk(w, l.ops[id].result.value);
    }
  }
}
