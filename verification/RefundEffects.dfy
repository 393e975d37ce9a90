/**
 When the transactions of the refund workflow and of the provider accept, with which error they
 refuse, and what they write: stated on the rows before and after.
 */
module RefundEffects {
  import opened Wrappers
  import opened LeaseQueues
  import opened RefundTables
  import opened SandboxStores
  import opened LeaseTiming

  // ----- receipts -----

  /** The operation the receipt's idempotency key names. */
  ghost predicate Names(l: Tables, r: Receipt, id: string)
  {
    id in l.ops && l.ops[id].key == r.command.key
  }

  predicate SameIdentity(o: Operation, r: Receipt)
  {
    o.provider == r.provider && r.command == o.request
  }

  predicate OwnsCase(l: Tables, o: Operation)
  {
    o.caseId in l.cases && o.userId == l.cases[o.caseId].userId
  }

  predicate SameAmount(l: Tables, o: Operation, r: Receipt)
  {
    o.caseId in l.cases && r.amountCents == l.cases[o.caseId].amountCents
  }

  predicate SameReference(o: Operation, r: Receipt)
  {
    |o.providerReference| == 0 || o.providerReference == r.refundId
  }

  /**
   A receipt under a new event id is accepted if and only if provider, command, amount and refund
   reference are those of the operation of its key; otherwise nothing is written and the error names
   the first difference.
   */
  lemma ReceiptAcceptedIff(l: Tables, r: Receipt, eventId: string, digest: Digest, id: string)
    requires UniqueKeys(l.ops) && Names(l, r, id) && (r.provider, eventId) !in l.inbox
    ensures var (l', answer) := ApplyReceiptTx(l, r, eventId, digest); var o := l.ops[id];
      && (answer.Done? <==> SameIdentity(o, r) && OwnsCase(l, o) && SameAmount(l, o, r) && SameReference(o, r))
      && (answer == Fail(IdentityMismatch) <==> !SameIdentity(o, r))
      && (answer == Fail(OperationNotFound) <==> SameIdentity(o, r) && !OwnsCase(l, o))
      && (answer == Fail(AmountMismatch) <==> SameIdentity(o, r) && OwnsCase(l, o) && !SameAmount(l, o, r))
      && (answer == Fail(ReferenceMismatch) <==> SameIdentity(o, r) && OwnsCase(l, o) && SameAmount(l, o, r) && !SameReference(o, r))
      && (!answer.Done? ==> l' == l)
  {
    assert HasKey(l.ops, id, r.command.key);
    assert SameKey(l.ops, id, FindByKey(l.ops, r.command.key).value);
  }

  lemma UnknownKeyIsRefused(l: Tables, r: Receipt, eventId: string, digest: Digest)
    requires (r.provider, eventId) !in l.inbox && forall id :: !Names(l, r, id)
    ensures ApplyReceiptTx(l, r, eventId, digest) == (l, Fail(OperationNotFound))
  {
    forall id ensures !HasKey(l.ops, id, r.command.key) { assert !Names(l, r, id); }
  }

  /** A repeated event repeats its outcome; the same event id with another body is a conflict. */
  lemma RepeatedEventChangesNothing(l: Tables, r: Receipt, eventId: string, digest: Digest)
    requires (r.provider, eventId) in l.inbox
    ensures var seen := l.inbox[(r.provider, eventId)];
      ApplyReceiptTx(l, r, eventId, digest)
      == (l, if seen.digest == digest then Done(Duplicate(seen.outcome)) else Fail(EventConflict))
  {}

  /** The newest receipt so far, for an operation that has not succeeded. */
  predicate Newest(o: Operation, r: Receipt)
  {
    o.providerVersion < r.version && !o.status.OpSucceeded?
  }

  /** The rows of an aggregate are closed, all others as before. */
  ghost predicate Closes<P>(t: Table<P>, t': Table<P>, aggregate: string)
  {
    && t'.Keys == t.Keys
    && (forall m :: m in t && t[m].aggregate != aggregate ==> t'[m] == t[m])
    && (forall m :: m in t && t[m].aggregate == aggregate ==>
          t'[m].status == Sent && t'[m].version == t[m].version + 1 && t'[m].attempt == t[m].attempt && t'[m].error == t[m].error)
  }

  /** What taking a receipt writes into its operation. */
  predicate TakesReceipt(o: Operation, o': Operation, r: Receipt)
  {
    && o'.result == Some(r) && o'.providerVersion == r.version && o'.providerReference == r.refundId && o'.version == o.version + 1
    && (match r.status
        case Succeeded => o'.status == OpSucceeded && o'.error == ""
        case Failed => o'.status == OpFailed && o'.error == "PROVIDER_REJECTED"
        case InProgress => o'.status == OpRunning && o'.error == "")
    && o'.attemptCount == o.attemptCount && o'.maxAttempts == o.maxAttempts && o'.requestHash == o.requestHash
    && o'.key == o.key && o'.caseId == o.caseId && o'.userId == o.userId && o'.provider == o.provider && o'.request == o.request
  }

  /** What it writes into the operation's case. */
  predicate ShowsReceipt(c: Case, c': Case, r: Receipt, eventId: string)
  {
    && c'.result == Some(r) && c'.version == c.version + 1 && c'.audit == c.audit + [ReceiptApplied(r.status, eventId, r.version)]
    && (match r.status
        case Succeeded => c'.status == Completed
        case Failed => c'.status == ExecutionFailed
        case InProgress => c'.status == Processing)
    && c'.orderId == c.orderId && c'.userId == c.userId && c'.reason == c.reason && c'.amountCents == c.amountCents
  }

  /**
   What an accepted receipt leaves: always its inbox row; the newest one also the operation and its
   case, and a terminal one closes the operation's message and job. An older one is ignored.
   */
  lemma ReceiptWrites(l: Tables, r: Receipt, eventId: string, digest: Digest, id: string)
    requires UniqueKeys(l.ops) && Names(l, r, id) && (r.provider, eventId) !in l.inbox
    requires ApplyReceiptTx(l, r, eventId, digest).1.Done?
    ensures var (l', answer) := ApplyReceiptTx(l, r, eventId, digest); var o := l.ops[id];
      && answer == Done(Accepted(if Newest(o, r) then Applied else Ignored))
      && l'.inbox == l.inbox[(r.provider, eventId) := InboxRow(digest, id, if Newest(o, r) then Applied else Ignored)]
      && (!Newest(o, r) ==> l' == l.(inbox := l'.inbox))
      && (Newest(o, r) ==>
            && l'.ops == l.ops[id := l'.ops[id]] && TakesReceipt(o, l'.ops[id], r)
            && o.caseId in l.cases && l'.cases == l.cases[o.caseId := l'.cases[o.caseId]]
            && ShowsReceipt(l.cases[o.caseId], l'.cases[o.caseId], r, eventId)
            && (r.status == InProgress ==> l'.outbox == l.outbox && l'.jobs == l.jobs)
            && (r.status != InProgress ==> Closes(l.outbox, l'.outbox, id) && Closes(l.jobs, l'.jobs, id)))
  {
    assert HasKey(l.ops, id, r.command.key);
    assert SameKey(l.ops, id, FindByKey(l.ops, r.command.key).value);
  }

  // ----- enqueueing -----

  /** A known key: the same request gets the operation it made, another request a conflict. */
  lemma KnownKeyAnswers(l: Tables, t: Template, actor: string, provider: string, message: string, now: real, id: string)
    requires UniqueKeys(l.ops) && id in l.ops && l.ops[id].key == t.key
    ensures var (l', answer) := EnqueueTx(l, t, actor, provider, message, now);
      && l' == l
      && (if l.ops[id].requestHash == t.requestHash && l.ops[id].provider == provider
          then answer == Done(l.ops[id]) else answer == Fail(OperationConflict))
  {
    assert HasKey(l.ops, id, t.key);
    assert SameKey(l.ops, id, FindByKey(l.ops, t.key).value);
  }

  /** The case of the template, if it is the caller's. */
  predicate CallersCase(l: Tables, t: Template)
  {
    t.caseId in l.cases && t.userId == l.cases[t.caseId].userId
  }

  /**
   A new key: the refund is queued if and only if the case is the caller's and approved and the drawn
   ids are new. A case already in execution, or a collision, is tried again; anything else is refused.
   */
  lemma NewKeyAnswers(l: Tables, t: Template, actor: string, provider: string, message: string, now: real)
    requires forall id :: id in l.ops ==> l.ops[id].key != t.key
    ensures var (l', answer) := EnqueueTx(l, t, actor, provider, message, now);
      var ids := t.operationId !in l.ops && t.operationId !in l.jobs && message !in l.outbox;
      && (answer.Done? <==> CallersCase(l, t) && l.cases[t.caseId].status == Approved && ids)
      && (answer == Retry <==>
            && CallersCase(l, t)
            && (l.cases[t.caseId].status in {Processing, Completed} || (l.cases[t.caseId].status == Approved && !ids)))
      && (answer.Fail? ==> answer.error == CaseNotApproved)
      && (!answer.Done? ==> l' == l)
  {
    assert forall id :: !HasKey(l.ops, id, t.key);
  }

  /** What queueing a refund writes: the operation, its message and job, and the case, all together. */
  lemma NewKeyWrites(l: Tables, t: Template, actor: string, provider: string, message: string, now: real)
    requires forall id :: id in l.ops ==> l.ops[id].key != t.key
    requires EnqueueTx(l, t, actor, provider, message, now).1.Done?
    ensures var (l', answer) := EnqueueTx(l, t, actor, provider, message, now); var c, c' := l.cases[t.caseId], l'.cases[t.caseId];
      var o, m, j := answer.value, l'.outbox[message], l'.jobs[t.operationId];
      && l'.ops == l.ops[t.operationId := o] && l'.cases == l.cases[t.caseId := c']
      && l'.outbox == l.outbox[message := m] && l'.jobs == l.jobs[t.operationId := j] && l'.inbox == l.inbox
      && o.status == OpPending && o.key == t.key && o.caseId == t.caseId && o.userId == t.userId && o.requestHash == t.requestHash
      && o.provider == provider && o.attemptCount == o.providerVersion == 0 && o.maxAttempts == 8 && o.version == 1
      && o.result.None? && o.providerReference == "" && o.error == ""
      && o.request.operationId == t.operationId && o.request.key == t.key
      && o.request.orderId == c.orderId && o.request.userId == c.userId && o.request.reason == c.reason
      && c'.status == Processing && c'.version == c.version + 1 && c'.audit == c.audit + [RefundQueued(actor, t.operationId)]
      && c'.orderId == c.orderId && c'.userId == c.userId && c'.amountCents == c.amountCents && c'.result == c.result && c'.reason == c.reason
      && m.aggregate == t.operationId && m.payload == o.request && m.maxAttempts == 8 && DueFrom(m, now)
      && j.aggregate == t.operationId && j.payload == t.key && j.maxAttempts == 12 && DueFrom(j, now + 2.0)
  {
    assert forall id :: !HasKey(l.ops, id, t.key);
  }

  // ----- the worker's bookkeeping -----

  /** The lease check that the transaction repeats before it writes. */
  predicate Entitled(l: Tables, guard: Option<(Lease<Command>, real)>)
  {
    guard.None? || Owned(l.outbox, guard.value.0, guard.value.1)
  }

  predicate Undecided(o: Operation)
  {
    o.status in {OpPending, OpRunning, OpUnknown}
  }

  /** An attempt is counted exactly for the holder of the lease and an operation still undecided. */
  lemma AttemptIsCounted(l: Tables, id: string, guard: Option<(Lease<Command>, real)>)
    ensures var (l', answer) := MarkAttemptTx(l, id, guard);
      && (answer == Retry <==> !Entitled(l, guard))
      && (answer == Fail(OperationNotFound) <==> Entitled(l, guard) && id !in l.ops)
      && (answer.Fail? ==> answer.error == OperationNotFound)
      && (l' != l <==> Entitled(l, guard) && id in l.ops && Undecided(l.ops[id]))
      && (l' == l || l' == l.(ops := l.ops[id := l'.ops[id]]))
      && (answer.Done? ==> id in l'.ops && answer.value == l'.ops[id])
      && (l' != l ==>
            && l'.ops[id].status == OpRunning && l'.ops[id].attemptCount == l.ops[id].attemptCount + 1
            && l'.ops[id].version == l.ops[id].version + 1 && l'.ops[id].error == l.ops[id].error)
  {}

  /** Doubt is written for an undecided operation, unless it says nothing new; a human case stays one. */
  lemma DoubtIsWritten(l: Tables, id: string, code: string, manual: bool, guard: Option<(Lease<Command>, real)>)
    ensures var (l', answer) := MarkUnknownTx(l, id, code, manual, guard);
      && (answer == Retry <==> !Entitled(l, guard))
      && (answer == Fail(OperationNotFound) <==> Entitled(l, guard) && id !in l.ops)
      && (answer.Fail? ==> answer.error == OperationNotFound)
      && (l' != l <==>
            && Entitled(l, guard) && id in l.ops && Undecided(l.ops[id])
            && (manual || l.ops[id].status != OpUnknown || l.ops[id].error != code))
      && (l' == l || l' == l.(ops := l.ops[id := l'.ops[id]]))
      && (answer.Done? ==> id in l'.ops && answer.value == l'.ops[id])
      && (l' != l ==>
            && l'.ops[id].status == (if manual then OpNeedsReconciliation else OpUnknown) && l'.ops[id].error == code
            && l'.ops[id].version == l.ops[id].version + 1 && l'.ops[id].attemptCount == l.ops[id].attemptCount)
  {}

  /**
   Another round of queries is granted for any operation of this provider without a verdict: its
   closed jobs are due at once, the others and the outbox are left alone, the case records who asked.
   */
  lemma RequeueReopens(l: Tables, id: string, actor: string, provider: string, now: real)
    ensures var (l', answer) := RequeueTx(l, id, actor, provider, now);
      var open := id in l.ops && l.ops[id].provider == provider && l.ops[id].status !in {OpSucceeded, OpFailed};
      && (answer == Fail(ReconciliationNotRequired) <==> !open)
      && (answer == Fail(OperationNotFound) <==> open && l.ops[id].caseId !in l.cases)
      && (answer.Done? <==> open && l.ops[id].caseId in l.cases)
      && (!answer.Done? ==> l' == l)
      && (answer.Done? ==>
            && var c := l.cases[l.ops[id].caseId];
            && l' == l.(jobs := l'.jobs, cases := l'.cases)
            && l'.cases == l.cases[l.ops[id].caseId := c.(version := c.version + 1, audit := c.audit + [ReconciliationRequested(actor, id)])]
            && l'.jobs.Keys == l.jobs.Keys
            && forall m :: m in l.jobs ==>
                 if l.jobs[m].aggregate == id && l.jobs[m].status in {Dead, Sent}
                 then DueFrom(l'.jobs[m], now) && l'.jobs[m].maxAttempts == l.jobs[m].attempt + 12
                 else l'.jobs[m] == l.jobs[m])
  {}

  // ----- the provider -----

  /** The status of a first receipt under each fault mode. */
  lemma FirstStatus(p: Store, c: Command, refundId: string)
    requires c.orderId in p.orders
    ensures var r := FirstReceipt(p, c, refundId); var mode := if c.orderId in p.faults then p.faults[c.orderId].mode else Normal;
      && r.command == c && r.provider == "commerce-sandbox" && r.version == 1 && r.refundId == refundId
      && r.amountCents == p.orders[c.orderId].amountCents
      && (r.status == InProgress <==> mode == DelayedSuccess)
      && (r.status == Failed <==> mode == Reject)
  {}

  /**
   A submission under a known key repeats the stored receipt, or conflicts when the command differs;
   a new one is accepted exactly for the owner of an order that has no refund, when neither the
   operation nor the event id is taken.
   */
  lemma SubmitAnswers(p: Store, c: Command, refundId: string, eventId: string, now: real)
    ensures var (p', answer) := SubmitTx(p, c, refundId, eventId, now);
      var known := c.key in p.refunds;
      var owner := c.orderId in p.orders && p.orders[c.orderId].ownerId == c.userId;
      var refunded := exists k :: k in p.refunds && p.refunds[k].command.orderId == c.orderId;
      var clash := eventId in p.events || exists k :: k in p.refunds && p.refunds[k].command.operationId == c.operationId;
      && (known ==> p' == p && answer == if p.refunds[c.key].command == c then Ok(p.refunds[c.key].receipt) else Err(IdempotencyConflict))
      && (!known ==>
            && (answer == Err(OrderNotFound) <==> !owner)
            && (answer == Err(OrderAlreadyRefunded) <==> owner && refunded)
            && (answer == Err(SandboxBusy) <==> owner && !refunded && clash)
            && (answer.Ok? <==> owner && !refunded && !clash)
            && (answer.Err? ==> p' == p))
  {
    assert forall k :: k in p.refunds && p.refunds[k].command.operationId == c.operationId ==> Collides(p.refunds[k], c);
    if Taken(p.refunds, c) {
      var k :| k in p.refunds && Collides(p.refunds[k], c);
    }
  }

  /** An accepted submission stores the first receipt, settles it later at the fault's delay, and queues its callback. */
  lemma SubmitWrites(p: Store, c: Command, refundId: string, eventId: string, now: real)
    requires c.key !in p.refunds && SubmitTx(p, c, refundId, eventId, now).1.Ok?
    ensures var (p', answer) := SubmitTx(p, c, refundId, eventId, now); var row := p'.refunds[c.key];
      var fault := if c.orderId in p.faults then p.faults[c.orderId] else NO_FAULT;
      && answer.value == FirstReceipt(p, c, refundId) == row.receipt
      && p'.refunds == p.refunds[c.key := row] && p'.orders == p.orders && p'.faults == p.faults
      && row.command == c && row.status == row.receipt.status && row.version == 1 && row.fault == fault
      && (forall at :: Due(row, at) <==> fault.mode == DelayedSuccess && now + fault.delaySeconds <= at)
      && p'.events == p.events[eventId := p'.events[eventId]]
      && p'.events[eventId].receipt == row.receipt && p'.events[eventId].dropped == fault.dropCallback
  {}

  /**
   A settlement takes effect exactly on a row unchanged since the poll, under a new event id: it is
   succeeded with the next version, and the same refund is reported once more.
   */
  lemma SettleWrites(p: Store, key: string, stale: Refund, eventId: string)
    requires key in p.refunds ==> RefundEvolves(stale, p.refunds[key])
    ensures var p' := SettleTx(p, key, stale, eventId);
      && (p' != p <==> key in p.refunds && p.refunds[key] == stale && eventId !in p.events)
      && (p' != p ==>
            && var row := p'.refunds[key];
            && p'.refunds == p.refunds[key := row] && p'.orders == p.orders && p'.faults == p.faults
            && row.status == row.receipt.status == Succeeded && row.version == row.receipt.version == stale.version + 1
            && row.receipt == stale.receipt.(status := Succeeded, version := row.version)
            && row.command == stale.command && row.fault == stale.fault && row.readyAt == stale.readyAt
            && p'.events == p.events[eventId := Event(row.receipt, stale.fault.dropCallback)])
  {
    if key in p.refunds && p.refunds[key].version == stale.version && eventId !in p.events {
      assert eventId in SettleTx(p, key, stale, eventId).events;
    }
  }
}
