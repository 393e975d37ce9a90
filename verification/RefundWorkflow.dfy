/** RefundWorkflow as an object: its transactions executed statement by statement on its tables. */
module RefundWorkflows {
  import opened Wrappers
  import opened LeaseQueues
  import opened RefundTables

  class RefundWorkflow {
    var ops: map<string, Operation>
    var cases: map<string, Case>
    var outbox: Table<Command>
    var jobs: Table<string>
    var inbox: map<(string, string), InboxRow>
    const provider: string

    ghost function Contents(): Tables
      reads this
    {
      Tables(ops, cases, outbox, jobs, inbox)
    }

    constructor (provider: string, cases: map<string, Case>)
      ensures Contents() == Tables(map[], cases, map[], map[], map[])
      ensures this.provider == provider
    {
      this.provider, this.cases := provider, cases;
      ops, outbox, jobs, inbox := map[], map[], map[], map[];
    }

    /** select ... where idempotency_key == key */
    method Find(key: string) returns (found: Option<string>)
      requires UniqueKeys(ops)
      ensures found == FindByKey(ops, key)
    {
      var left := ops.Keys;
      while left != {}
        invariant left <= ops.Keys
        invariant forall id :: id in ops && id !in left ==> ops[id].key != key
        decreases |left|
      {
        var id :| id in left;
        if ops[id].key == key {
          assert HasKey(ops, id, key);
          assert SameKey(ops, id, FindByKey(ops, key).value);
          return Some(id);
        }
        left := left - {id};
      }
      return None;
    }

    /**
     Twelve attempts, of which the first `lost` are rolled back by concurrent writers without a
     trace; a race that persists is reported as busy.
     */
    method Enqueue(t: Template, actor: string, message: string, now: real, lost: nat)
      returns (r: Result<Operation, RefundError>)
      requires UniqueKeys(ops)
      modifies this
      ensures UniqueKeys(ops)
      ensures var tx := EnqueueTx(old(Contents()), t, actor, provider, message, now);
        if lost >= 12 || tx.1 == Retry then r == Err(Busy) && Contents() == old(Contents())
        else Contents() == tx.0 && tx.1 == (if r.Ok? then Done(r.value) else Fail(r.error))
    {
      for attempt := 0 to 12
        invariant Contents() == old(Contents())
        invariant attempt > lost ==> EnqueueTx(old(Contents()), t, actor, provider, message, now).1 == Retry
      {
        if attempt >= lost {
          var found := Find(t.key);
          if found.Some? {
            var op := ops[found.value];
            if op.requestHash != t.requestHash || op.provider != provider {
              return Err(OperationConflict);
            }
            return Ok(op);
          }
          if t.caseId !in cases || cases[t.caseId].userId != t.userId {
            return Err(CaseNotApproved);
          }
          var case_ := cases[t.caseId];
          if case_.status != Processing && case_.status != Completed {
            if case_.status != Approved {
              return Err(CaseNotApproved);
            }
            if t.operationId !in ops && message !in outbox && t.operationId !in jobs {
              assert forall id :: id in ops ==> !HasKey(ops, id, t.key);
              var op := NewOperation(t, case_, provider);
              ops := ops[t.operationId := op];
              cases := cases[t.caseId := SaveCase(case_, Processing, RefundQueued(actor, t.operationId))];
              outbox := outbox[message := NewRow(t.operationId, op.request, now, op.maxAttempts, 0.0)];
              jobs := jobs[t.operationId := NewRow(t.operationId, op.key, now, 12, 2.0)];
              assert forall a, b :: SameKey(ops, a, b) && a != b ==> SameKey(old(ops), a, b);
              return Ok(op);
            }
          }
        }
      }
      return Err(Busy);
    }

    method MarkAttempt(id: string, guard: Option<(Lease<Command>, real)>, lost: nat)
      returns (r: Result<Operation, RefundError>)
      requires id in ops
      modifies this`ops
      ensures lost >= 12 || !old(Guarded(Contents(), guard)) ==> r == Err(OperationBusy) && Contents() == old(Contents())
      ensures lost < 12 && old(Guarded(Contents(), guard)) ==>
        r.Ok? && (Contents(), Done(r.value)) == MarkAttemptTx(old(Contents()), id, guard)
    {
      for attempt := 0 to 12
        invariant Contents() == old(Contents())
        invariant attempt > lost ==> !Guarded(old(Contents()), guard)
      {
        if attempt >= lost && (guard.None? || Owned(outbox, guard.value.0, guard.value.1)) {
          var old_ := ops[id];
          if old_.status !in {OpSucceeded, OpFailed, OpNeedsReconciliation} {
            var new_ := old_.(status := OpRunning, attemptCount := old_.attemptCount + 1, version := old_.version + 1);
            ops := ops[id := new_];
            return Ok(new_);
          }
          return Ok(old_);
        }
      }
      return Err(OperationBusy);
    }

    method MarkUnknown(id: string, code: string, manual: bool, guard: Option<(Lease<Command>, real)>, lost: nat)
      returns (r: Result<Operation, RefundError>)
      requires id in ops
      modifies this`ops
      ensures lost >= 12 || !old(Guarded(Contents(), guard)) ==> r == Err(OperationBusy) && Contents() == old(Contents())
      ensures lost < 12 && old(Guarded(Contents(), guard)) ==>
        r.Ok? && (Contents(), Done(r.value)) == MarkUnknownTx(old(Contents()), id, code, manual, guard)
    {
      for attempt := 0 to 12
        invariant Contents() == old(Contents())
        invariant attempt > lost ==> !Guarded(old(Contents()), guard)
      {
        if attempt >= lost && (guard.None? || Owned(outbox, guard.value.0, guard.value.1)) {
          var old_ := ops[id];
          if old_.status in {OpSucceeded, OpFailed, OpNeedsReconciliation} {
            return Ok(old_);
          }
          if old_.status == OpUnknown && !manual && old_.error == code {
            return Ok(old_);
          }
          var new_ := old_.(status := if manual then OpNeedsReconciliation else OpUnknown, error := code,
                            version := old_.version + 1);
          ops := ops[id := new_];
          return Ok(new_);
        }
      }
      return Err(OperationBusy);
    }

    /** The row writes of an accepted receipt. */
    method SaveReceipt(id: string, receipt: Receipt, eventId: string)
      requires id in ops && ops[id].caseId in cases
      modifies this
      ensures Contents() == Absorb(old(Contents()), id, receipt, eventId)
    {
      var old_ := ops[id];
      var status := StatusOf(receipt);
      ops := ops[id := old_.(status := status, providerVersion := receipt.version,
        providerReference := receipt.refundId, result := Some(receipt),
        error := if status != OpFailed then "" else "PROVIDER_REJECTED", version := old_.version + 1)];
      var case_ := cases[old_.caseId];
      cases := cases[old_.caseId := case_.(status := CaseStatusOf(status), result := Some(receipt),
        audit := case_.audit + [ReceiptApplied(receipt.status, eventId, receipt.version)],
        version := case_.version + 1)];
      if status == OpSucceeded || status == OpFailed {
        jobs := RetireAll(jobs, id);
        outbox := RetireAll(outbox, id);
      }
    }

    /** Sixteen attempts; receipt identity, inbox row and business rows commit together. */
    method ApplyReceipt(receipt: Receipt, eventId: string, digest: Digest, lost: nat)
      returns (r: Result<Applying, RefundError>)
      requires UniqueKeys(ops)
      modifies this
      ensures lost >= 16 ==> r == Err(InboxBusy)
      ensures lost < 16 && r.Ok? ==> (Contents(), Done(r.value)) == ApplyReceiptTx(old(Contents()), receipt, eventId, digest)
      ensures lost < 16 && r.Err? ==> ApplyReceiptTx(old(Contents()), receipt, eventId, digest).1 == Fail(r.error)
      ensures r.Err? ==> Contents() == old(Contents())
    {
      for attempt := 0 to 16
        invariant Contents() == old(Contents())
        invariant attempt <= lost
      {
        if attempt >= lost {
          var slot := (receipt.provider, eventId);
          if slot in inbox {
            if inbox[slot].digest != digest {
              return Err(EventConflict);
            }
            return Ok(Duplicate(inbox[slot].outcome));
          }
          var found := Find(receipt.command.key);
          if found.None? {
            return Err(OperationNotFound);
          }
          var id := found.value;
          var refusal := Refusal(Tables(ops, cases, outbox, jobs, inbox), id, receipt);
          if refusal.Some? {
            return Err(refusal.value);
          }
          var old_ := ops[id];
          var outcome := Ignored;
          if receipt.version > old_.providerVersion && old_.status != OpSucceeded {
            outcome := Applied;
            SaveReceipt(id, receipt, eventId);
          }
          inbox := inbox[slot := InboxRow(digest, id, outcome)];
          return Ok(Accepted(outcome));
        }
      }
      return Err(InboxBusy);
    }

    method RequeueReconciliation(id: string, actor: string, now: real) returns (r: Result<(), RefundError>)
      requires id in ops ==> ops[id].caseId in cases
      modifies this`jobs, this`cases
      ensures r.Ok? ==> (Contents(), Done(())) == RequeueTx(old(Contents()), id, actor, provider, now)
      ensures r.Err? ==> Contents() == old(Contents()) && r.error == ReconciliationNotRequired
      ensures r.Err? <==> (id !in ops || Final(ops[id].status) || ops[id].provider != provider)
    {
      if id !in ops || ops[id].status in {OpSucceeded, OpFailed} || ops[id].provider != provider {
        return Err(ReconciliationNotRequired);
      }
      jobs := ReopenJobs(jobs, id, now);
      var case_ := cases[ops[id].caseId];
      cases := cases[ops[id].caseId := case_.(version := case_.version + 1,
        audit := case_.audit + [ReconciliationRequested(actor, id)])];
      return Ok(());
    }
  }
}
