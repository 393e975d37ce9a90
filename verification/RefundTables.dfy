/**
 The five tables of the refund workflow and the transactions on them
 (app/services/refund_workflow.py). A transaction is a function from the tables it starts on to
 the tables it commits; `Retry` is a rolled-back attempt (integrity error or delivery conflict),
 `Fail` an error the caller sees. Neither of them changes a table.
 */
module RefundTables {
  import opened Wrappers
  import opened LeaseQueues

  /** The five fields both sides compare to establish a refund's identity. */
  datatype Command = Command(operationId: string, key: string, orderId: string, userId: string, reason: string)

  /** `InProgress` is the contract's "processing". */
  datatype ReceiptStatus = InProgress | Succeeded | Failed

  datatype Receipt = Receipt(
    command: Command,
    provider: string,
    status: ReceiptStatus,
    version: nat,
    refundId: string,
    amountCents: int)

  predicate Terminal(r: Receipt) { r.status != InProgress }

  datatype OpStatus = OpPending | OpRunning | OpUnknown | OpNeedsReconciliation | OpSucceeded | OpFailed

  datatype Operation = Operation(
    key: string,
    caseId: string,
    userId: string,
    requestHash: string,
    status: OpStatus,
    attemptCount: nat,
    maxAttempts: nat,
    version: nat,
    provider: string,
    providerVersion: nat,
    providerReference: string,
    request: Command,
    result: Option<Receipt>,
    error: string)

  predicate Final(s: OpStatus) { s == OpSucceeded || s == OpFailed }

  /** The statuses in which neither an attempt nor an unknown outcome may be recorded. */
  predicate Settled(s: OpStatus) { Final(s) || s == OpNeedsReconciliation }

  datatype CaseStatus = PendingReview | Approved | Processing | Completed | Rejected | ExecutionFailed

  datatype AuditEvent =
    | RefundQueued(actor: string, operationId: string)
    | ReceiptApplied(status: ReceiptStatus, eventId: string, version: nat)
    | ReconciliationRequested(actor: string, operationId: string)

  /** `amountCents` is int(Decimal(str(amount)) * 100) of the stored amount. */
  datatype Case = Case(
    orderId: string,
    userId: string,
    reason: string,
    amountCents: int,
    status: CaseStatus,
    version: nat,
    result: Option<Receipt>,
    audit: seq<AuditEvent>)

  /** Payload digests are collision free: a digest is the thing digested. */
  datatype Digest = OfReceipt(receipt: Receipt) | OfEvent(eventId: string, receipt: Receipt)

  datatype Outcome = Applied | Ignored

  datatype InboxRow = InboxRow(digest: Digest, operationId: string, outcome: Outcome)

  /** Operations by operation id, messages by message id, inbox rows by (provider, event id). */
  datatype Tables = Tables(
    ops: map<string, Operation>,
    cases: map<string, Case>,
    outbox: Table<Command>,
    jobs: Table<string>,
    inbox: map<(string, string), InboxRow>)

  datatype Template = Template(operationId: string, key: string, caseId: string, userId: string, requestHash: string)

  datatype RefundError =
    | OperationConflict | CaseNotApproved | Busy | EventConflict | OperationNotFound | IdentityMismatch
    | AmountMismatch | ReferenceMismatch | InboxBusy | ReconciliationNotRequired | OperationBusy

  datatype Attempt<+T> = Done(value: T) | Retry | Fail(error: RefundError)

  datatype Applying = Duplicate(previous: Outcome) | Accepted(outcome: Outcome)

  /** The idempotency key is the table's primary key. */
  ghost predicate UniqueKeys(ops: map<string, Operation>)
  {
    forall a, b :: SameKey(ops, a, b) ==> a == b
  }

  ghost predicate SameKey(ops: map<string, Operation>, a: string, b: string)
  {
    a in ops && b in ops && ops[a].key == ops[b].key
  }

  ghost predicate HasKey(ops: map<string, Operation>, id: string, key: string)
  {
    id in ops && ops[id].key == key
  }

  ghost function FindByKey(ops: map<string, Operation>, key: string): (r: Option<string>)
    ensures r.Some? ==> HasKey(ops, r.value, key)
    ensures r.None? ==> forall id :: !HasKey(ops, id, key)
  {
    if exists id :: HasKey(ops, id, key) then
      var id :| HasKey(ops, id, key); Some(id)
    else None
  }

  function NewOperation(t: Template, c: Case, provider: string): Operation
  {
    Operation(t.key, t.caseId, t.userId, t.requestHash, OpPending, 0, 8, 1, provider, 0, "",
              Command(t.operationId, t.key, c.orderId, c.userId, c.reason), None, "")
  }

  function SaveCase(c: Case, status: CaseStatus, event: AuditEvent): Case
  {
    c.(status := status, version := c.version + 1, audit := c.audit + [event])
  }

  /** Operation, case, outbox message and reconciliation job appear in one transaction. */
  ghost function EnqueueTx(l: Tables, t: Template, actor: string, provider: string, message: string, now: real)
    : (Tables, Attempt<Operation>)
  {
    match FindByKey(l.ops, t.key)
    case Some(id) =>
      if l.ops[id].requestHash != t.requestHash || l.ops[id].provider != provider
      then (l, Fail(OperationConflict)) else (l, Done(l.ops[id]))
    case None =>
      if t.caseId !in l.cases || l.cases[t.caseId].userId != t.userId then (l, Fail(CaseNotApproved))
      else
        var c := l.cases[t.caseId];
        if c.status == Processing || c.status == Completed then (l, Retry)
        else if c.status != Approved then (l, Fail(CaseNotApproved))
        else if t.operationId in l.ops || message in l.outbox || t.operationId in l.jobs then (l, Retry)
        else
          var op := NewOperation(t, c, provider);
          (l.(ops := l.ops[t.operationId := op],
              cases := l.cases[t.caseId := SaveCase(c, Processing, RefundQueued(actor, t.operationId))],
              outbox := l.outbox[message := NewRow(t.operationId, op.request, now, 8, 0.0)],
              jobs := l.jobs[t.operationId := NewRow(t.operationId, t.key, now, 12, 2.0)]),
           Done(op))
  }

  /** The optional lease guard runs in the same transaction as the business write. */
  predicate Guarded(l: Tables, guard: Option<(Lease<Command>, real)>)
  {
    guard.Some? ==> Owned(l.outbox, guard.value.0, guard.value.1)
  }

  function Attempted(o: Operation): Operation
  {
    o.(status := OpRunning, attemptCount := o.attemptCount + 1, version := o.version + 1)
  }

  function MarkAttemptTx(l: Tables, id: string, guard: Option<(Lease<Command>, real)>): (Tables, Attempt<Operation>)
  {
    if !Guarded(l, guard) then (l, Retry)
    else if id !in l.ops then (l, Fail(OperationNotFound))
    else if Settled(l.ops[id].status) then (l, Done(l.ops[id]))
    else (l.(ops := l.ops[id := Attempted(l.ops[id])]), Done(Attempted(l.ops[id])))
  }

  function Doubted(o: Operation, code: string, manual: bool): Operation
  {
    o.(status := if manual then OpNeedsReconciliation else OpUnknown, error := code, version := o.version + 1)
  }

  function MarkUnknownTx(l: Tables, id: string, code: string, manual: bool, guard: Option<(Lease<Command>, real)>)
    : (Tables, Attempt<Operation>)
  {
    if !Guarded(l, guard) then (l, Retry)
    else if id !in l.ops then (l, Fail(OperationNotFound))
    else
      var o := l.ops[id];
      if Settled(o.status) || (o.status == OpUnknown && !manual && o.error == code) then (l, Done(o))
      else (l.(ops := l.ops[id := Doubted(o, code, manual)]), Done(Doubted(o, code, manual)))
  }

  predicate Absorbs(o: Operation, r: Receipt)
  {
    r.version > o.providerVersion && o.status != OpSucceeded
  }

  function StatusOf(r: Receipt): OpStatus
  {
    match r.status
    case InProgress => OpRunning
    case Succeeded => OpSucceeded
    case Failed => OpFailed
  }

  function CaseStatusOf(s: OpStatus): CaseStatus
  {
    match s
    case OpSucceeded => Completed
    case OpFailed => ExecutionFailed
    case _ => Processing
  }

  function Absorbed(o: Operation, r: Receipt): Operation
  {
    o.(status := StatusOf(r), providerVersion := r.version, providerReference := r.refundId, result := Some(r),
      error := if r.status == Failed then "PROVIDER_REJECTED" else "", version := o.version + 1)
  }

  /** Everything one accepted receipt writes besides its inbox row. */
  function Absorb(l: Tables, id: string, r: Receipt, eventId: string): Tables
    requires id in l.ops && l.ops[id].caseId in l.cases
  {
    var o := Absorbed(l.ops[id], r);
    var c := l.cases[o.caseId];
    l.(ops := l.ops[id := o],
       cases := l.cases[o.caseId :=
         SaveCase(c, CaseStatusOf(o.status), ReceiptApplied(r.status, eventId, r.version)).(result := Some(r))],
       jobs := if Terminal(r) then RetireAll(l.jobs, id) else l.jobs,
       outbox := if Terminal(r) then RetireAll(l.outbox, id) else l.outbox)
  }

  /** Identity, amount and reference checks, in the order the code makes them. */
  function Refusal(l: Tables, id: string, r: Receipt): Option<RefundError>
    requires id in l.ops
  {
    var o := l.ops[id];
    if o.provider != r.provider || o.request != r.command then Some(IdentityMismatch)
    else if o.caseId !in l.cases || l.cases[o.caseId].userId != o.userId then Some(OperationNotFound)
    else if l.cases[o.caseId].amountCents != r.amountCents then Some(AmountMismatch)
    else if o.providerReference != "" && o.providerReference != r.refundId then Some(ReferenceMismatch)
    else None
  }

  ghost function ApplyReceiptTx(l: Tables, r: Receipt, eventId: string, digest: Digest): (Tables, Attempt<Applying>)
  {
    if (r.provider, eventId) in l.inbox then
      if l.inbox[(r.provider, eventId)].digest != digest then (l, Fail(EventConflict))
      else (l, Done(Duplicate(l.inbox[(r.provider, eventId)].outcome)))
    else
      match FindByKey(l.ops, r.command.key)
      case None => (l, Fail(OperationNotFound))
      case Some(id) =>
        if Refusal(l, id, r).Some? then (l, Fail(Refusal(l, id, r).value))
        else
          var outcome := if Absorbs(l.ops[id], r) then Applied else Ignored;
          var l' := if Absorbs(l.ops[id], r) then Absorb(l, id, r, eventId) else l;
          (l'.(inbox := l.inbox[(r.provider, eventId) := InboxRow(digest, id, outcome)]), Done(Accepted(outcome)))
  }

  /** An operator reopens the query job only; the outbox is not touched. */
  function ReopenJobs(jobs: Table<string>, id: string, now: real): Table<string>
  {
    map m | m in jobs ::
      if jobs[m].aggregate == id && jobs[m].status in {Dead, Sent} then Reopened(jobs[m], now) else jobs[m]
  }

  function RequeueTx(l: Tables, id: string, actor: string, provider: string, now: real): (Tables, Attempt<()>)
  {
    if id !in l.ops || Final(l.ops[id].status) || l.ops[id].provider != provider
    then (l, Fail(ReconciliationNotRequired))
    else if l.ops[id].caseId !in l.cases then (l, Fail(OperationNotFound))
    else
      var c := l.cases[l.ops[id].caseId];
      (l.(jobs := ReopenJobs(l.jobs, id, now),
          cases := l.cases[l.ops[id].caseId := SaveCase(c, c.status, ReconciliationRequested(actor, id))]),
       Done(()))
  }
}
