/**
 The whole refund delivery protocol as a state machine: the workflow database, the provider's
 database, any number of dispatcher and reconciliation workers
 (app/services/refund_delivery.py), provider callbacks, the network between them, crashes and an
 arbitrary clock. Each transaction is one step; everything a worker read before it is a stale
 local copy. A request in flight may reach the provider late, repeatedly or never, and its reply
 may be lost.
 */
module RefundProtocol {
  import opened Wrappers
  import opened LeaseQueues
  import opened RefundTables
  import opened SandboxStores
  import opened RefundInvariant

  /** A submission on the wire, named by the claim that sent it. */
  datatype Request = Request(message: string, fence: nat, command: Command)

  /** Program counters of the worker loops, with the local variables that are live there. */
  datatype Worker =
    | Idle
    // dispatch_once
    | Polling(rows: seq<(string, Row<Command>)>)
    | Marking(claim: Lease<Command>)
    | ClosingSettled(claim: Lease<Command>)
    | CheckingBefore(claim: Lease<Command>)
    | Sending(claim: Lease<Command>)
    | Waiting(claim: Lease<Command>)
    | CheckingAfter(claim: Lease<Command>, receipt: Receipt)
    | Applying(claim: Lease<Command>, receipt: Receipt)
    | ClosingAccepted(claim: Lease<Command>)
    | Doubting(claim: Lease<Command>, code: string)
    | ClosingFailed(claim: Lease<Command>, code: string)
    // both loops
    | Escalating(id: string, code: string)
    // reconcile_once
    | PollingJobs(jobRows: seq<(string, Row<string>)>)
    | Sweeping(ids: seq<string>)
    | Querying(job: Lease<string>)
    | CheckingJob(job: Lease<string>, answer: Option<Receipt>)
    | ApplyingJob(job: Lease<string>, receipt: Receipt)
    | ClosingJob(job: Lease<string>, code: string, delay: Option<real>, escalation: string)
    // the provider's settle_due
    | PollingRefunds(refundRows: seq<(string, Refund)>)

  datatype System = System(
    local: Tables,
    world: World,
    workers: map<nat, Worker>,
    requests: set<Request>,
    replies: set<(Request, Receipt)>,
    grants: map<(string, nat), nat>)

  function At(s: System, w: nat): Worker
  {
    if w in s.workers then s.workers[w] else Idle
  }

  function Goto(s: System, w: nat, next: Worker): System
  {
    s.(workers := s.workers[w := next])
  }

  predicate Current<P(==)>(t: map<string, P>, rows: seq<(string, P)>)
  {
    forall i :: 0 <= i < |rows| ==> rows[i].0 in t && t[rows[i].0] == rows[i].1
  }

  function CodeOf(e: RefundError): string
  {
    match e
    case OperationConflict => "REFUND_OPERATION_CONFLICT"
    case CaseNotApproved => "CASE_NOT_APPROVED"
    case Busy => "REFUND_BUSY"
    case EventConflict => "INBOX_EVENT_CONFLICT"
    case OperationNotFound => "REFUND_OPERATION_NOT_FOUND"
    case IdentityMismatch => "REFUND_IDENTITY_MISMATCH"
    case AmountMismatch => "REFUND_AMOUNT_MISMATCH"
    case ReferenceMismatch => "REFUND_REFERENCE_MISMATCH"
    case InboxBusy => "INBOX_BUSY"
    case ReconciliationNotRequired => "RECONCILIATION_NOT_REQUIRED"
    case OperationBusy => "OPERATION_BUSY"
  }

  // ----- the dispatcher -----

  function PollOutbox(s: System, w: nat, rows: seq<(string, Row<Command>)>, now: real): System
  {
    if At(s, w).Idle? && Current(s.local.outbox, rows) && (forall i :: 0 <= i < |rows| ==> Eligible(rows[i].1, now))
    then Goto(s, w, Polling(rows)) else s
  }

  function TryOutbox(s: System, w: nat, owner: string, now: real, lease: real): System
  {
    if !At(s, w).Polling? then s
    else if At(s, w).rows == [] then Goto(s, w, Idle)
    else
      var (id, stale) := At(s, w).rows[0];
      var (table, claim) := TryClaim(s.local.outbox, id, stale, owner, now, lease);
      var s' := s.(local := s.local.(outbox := table));
      match claim
      case Some(c) => Goto(s', w, Marking(c)).(grants := s.grants[(id, c.row.fence) := w])
      case None => Goto(s', w, Polling(At(s, w).rows[1..]))
  }

  function Mark(s: System, w: nat, now: real): System
  {
    if !At(s, w).Marking? then s
    else
      var claim := At(s, w).claim;
      var (local, answer) := MarkAttemptTx(s.local, claim.row.aggregate, Some((claim, now)));
      var s' := s.(local := local);
      match answer
      case Done(o) => Goto(s', w, if Settled(o.status) then ClosingSettled(claim) else CheckingBefore(claim))
      case Retry => Goto(s', w, Idle)
      case Fail(e) => Goto(s', w, Doubting(claim, CodeOf(e)))
  }

  /** finish(claim) with neither an error nor a delay, from the two places that do so. */
  function CloseDelivered(s: System, w: nat, checked: real, now: real): System
  {
    if !At(s, w).ClosingSettled? && !At(s, w).ClosingAccepted? then s
    else
      Goto(s.(local := s.local.(outbox := FinishLease(s.local.outbox, At(s, w).claim, "", None, checked, now).0)), w, Idle)
  }

  /** owned(conn, claim) around the provider call; a lost lease ends the dispatch. */
  function Check(s: System, w: nat, now: real): System
  {
    match At(s, w)
    case CheckingBefore(c) => Goto(s, w, if Owned(s.local.outbox, c, now) then Sending(c) else Idle)
    case CheckingAfter(c, r) => Goto(s, w, if Owned(s.local.outbox, c, now) then Applying(c, r) else Idle)
    case _ => s
  }

  function Send(s: System, w: nat): System
  {
    if !At(s, w).Sending? then s
    else
      var c := At(s, w).claim;
      Goto(s, w, Waiting(c)).(requests := s.requests + {Request(c.id, c.row.fence, c.row.payload)})
  }

  function ReceiveReply(s: System, w: nat, receipt: Receipt): System
  {
    if !At(s, w).Waiting? then s
    else
      var c := At(s, w).claim;
      if (Request(c.id, c.row.fence, c.row.payload), receipt) in s.replies
      then Goto(s, w, CheckingAfter(c, receipt)) else s
  }

  /** Timeout, disconnect, refusal or an unreadable reply; the request may or may not have arrived. */
  function CallFails(s: System, w: nat, code: string): System
  {
    if code == "" then s
    else
      match At(s, w)
      case Sending(c) => Goto(s, w, Doubting(c, code))
      case Waiting(c) => Goto(s, w, Doubting(c, code))
      case _ => s
  }

  /** What a worker gets back from applying a receipt; `lost` when all its attempts lost a race. */
  ghost function ApplyAttempts(l: Tables, r: Receipt, eventId: string, lost: bool): (Tables, Attempt<Applying>)
  {
    if lost then (l, Fail(InboxBusy)) else ApplyReceiptTx(l, r, eventId, OfReceipt(r))
  }

  ghost function ApplyReply(s: System, w: nat, eventId: string, lost: bool): System
  {
    if !At(s, w).Applying? then s
    else
      var (c, r) := (At(s, w).claim, At(s, w).receipt);
      var (local, answer) := ApplyAttempts(s.local, r, eventId, lost);
      Goto(s.(local := local), w,
           if answer.Fail? then Doubting(c, CodeOf(answer.error))
           else if r.status == InProgress then ClosingAccepted(c) else Idle)
  }

  function Doubt(s: System, w: nat, now: real): System
  {
    if !At(s, w).Doubting? then s
    else
      var (c, code) := (At(s, w).claim, At(s, w).code);
      var (local, answer) := MarkUnknownTx(s.local, c.row.aggregate, code, false, Some((c, now)));
      Goto(s.(local := local), w, if answer.Done? then ClosingFailed(c, code) else Idle)
  }

  function CloseFailed(s: System, w: nat, checked: real, now: real): System
  {
    if !At(s, w).ClosingFailed? then s
    else
      var (c, code) := (At(s, w).claim, At(s, w).code);
      var (outbox, answer) := FinishLease(s.local.outbox, c, code, None, checked, now);
      Goto(s.(local := s.local.(outbox := outbox)), w,
           if answer == Ok(Dead) then Escalating(c.row.aggregate, code) else Idle)
  }

  /** The unguarded mark_unknown(manual=True) that ends both loops. */
  function Escalate(s: System, w: nat): System
  {
    if !At(s, w).Escalating? then s
    else Goto(s.(local := MarkUnknownTx(s.local, At(s, w).id, At(s, w).code, true, None).0), w, Idle)
  }

  // ----- the reconciler -----

  function PollJobs(s: System, w: nat, rows: seq<(string, Row<string>)>, now: real): System
  {
    if At(s, w).Idle? && Current(s.local.jobs, rows) && (forall i :: 0 <= i < |rows| ==> Eligible(rows[i].1, now))
    then Goto(s, w, PollingJobs(rows)) else s
  }

  function TryJob(s: System, w: nat, owner: string, now: real, lease: real): System
  {
    if !At(s, w).PollingJobs? || At(s, w).jobRows == [] then s
    else
      var (id, stale) := At(s, w).jobRows[0];
      var (table, claim) := TryClaim(s.local.jobs, id, stale, owner, now, lease);
      Goto(s.(local := s.local.(jobs := table)), w,
           if claim.Some? then Querying(claim.value) else PollingJobs(At(s, w).jobRows[1..]))
  }

  predicate Swept(l: Tables, id: string)
  {
    id in l.jobs && l.jobs[id].status == Dead && id in l.ops && !Settled(l.ops[id].status)
  }

  /** No job could be claimed: read up to 32 dead jobs whose operation is still open. */
  function StartSweep(s: System, w: nat, ids: seq<string>): System
  {
    if At(s, w).PollingJobs? && At(s, w).jobRows == [] && |ids| <= 32 && (forall i :: 0 <= i < |ids| ==> Swept(s.local, ids[i]))
    then Goto(s, w, Sweeping(ids)) else s
  }

  function SweepNext(s: System, w: nat): System
  {
    if !At(s, w).Sweeping? then s
    else if At(s, w).ids == [] then Goto(s, w, Idle)
    else
      Goto(s.(local := MarkUnknownTx(s.local, At(s, w).ids[0], "RECONCILIATION_EXHAUSTED", true, None).0), w,
           Sweeping(At(s, w).ids[1..]))
  }

  /** The query only reads the provider. */
  function Query(s: System, w: nat): System
  {
    if !At(s, w).Querying? then s
    else Goto(s, w, CheckingJob(At(s, w).job, GetRefund(s.world.store, At(s, w).job.row.payload)))
  }

  function QueryFails(s: System, w: nat, code: string): System
  {
    if !At(s, w).Querying? || code == "" then s
    else Goto(s, w, ClosingJob(At(s, w).job, code, None, code))
  }

  function NotFinal(job: Lease<string>): Worker
  {
    ClosingJob(job, "REFUND_NOT_FINAL", Some(2.0), "RECONCILIATION_EXHAUSTED")
  }

  function CheckJob(s: System, w: nat, now: real): System
  {
    if !At(s, w).CheckingJob? then s
    else
      var (job, answer) := (At(s, w).job, At(s, w).answer);
      Goto(s, w,
           if !Owned(s.local.jobs, job, now) then Idle
           else if answer.Some? then ApplyingJob(job, answer.value) else NotFinal(job))
  }

  ghost function ApplyAnswer(s: System, w: nat, eventId: string, lost: bool): System
  {
    if !At(s, w).ApplyingJob? then s
    else
      var (job, r) := (At(s, w).job, At(s, w).receipt);
      var (local, answer) := ApplyAttempts(s.local, r, eventId, lost);
      Goto(s.(local := local), w,
           if answer.Fail? then ClosingJob(job, CodeOf(answer.error), None, CodeOf(answer.error))
           else if Terminal(r) then Idle else NotFinal(job))
  }

  function CloseJob(s: System, w: nat, checked: real, now: real): System
  {
    if !At(s, w).ClosingJob? then s
    else
      var j := At(s, w);
      var (jobs, answer) := FinishLease(s.local.jobs, j.job, j.code, j.delay, checked, now);
      Goto(s.(local := s.local.(jobs := jobs)), w,
           if answer == Ok(Dead) then Escalating(j.job.row.aggregate, j.escalation) else Idle)
  }

  // ----- the provider, its callbacks, and the rest of the application -----

  /** The provider handles a request that is, or once was, on the wire. */
  function Deliver(s: System, q: Request, refundId: string, eventId: string, now: real): System
  {
    if q !in s.requests || refundId == "" then s
    else
      var (store, answer) := SubmitTx(s.world.store, q.command, refundId, eventId, now);
      match answer
      case Ok(r) => s.(world := World(store, s.world.issued + {r}), replies := s.replies + {(q, r)})
      case Err(_) => s
  }

  function PollRefunds(s: System, w: nat, rows: seq<(string, Refund)>, now: real): System
  {
    if At(s, w).Idle? && Current(s.world.store.refunds, rows) && (forall i :: 0 <= i < |rows| ==> Due(rows[i].1, now))
    then Goto(s, w, PollingRefunds(rows)) else s
  }

  function SettleNext(s: System, w: nat, eventId: string): System
  {
    if !At(s, w).PollingRefunds? then s
    else if At(s, w).refundRows == [] then Goto(s, w, Idle)
    else
      var (key, stale) := At(s, w).refundRows[0];
      var store := SettleTx(s.world.store, key, stale, eventId);
      Goto(s.(world := World(store, if store == s.world.store then s.world.issued
                                    else s.world.issued + {SettledReceipt(stale)})), w,
           PollingRefunds(At(s, w).refundRows[1..]))
  }

  function SetFault(s: System, orderId: string, fault: Fault): System
  {
    s.(world := s.world.(store := s.world.store.(faults := s.world.store.faults[orderId := fault])))
  }

  /** A signed callback: any recorded event, in any order and any number of times. */
  ghost function Callback(s: System, eventId: string): System
  {
    if eventId !in s.world.store.events || s.world.store.events[eventId].dropped then s
    else
      var r := s.world.store.events[eventId].receipt;
      s.(local := ApplyReceiptTx(s.local, r, eventId, OfEvent(eventId, r)).0)
  }

  /** Case creation and review: only cases that have not reached execution are written. */
  function ReviewCase(s: System, caseId: string, c: Case): System
  {
    if caseId in s.local.cases && s.local.cases[caseId].status != PendingReview then s
    else s.(local := s.local.(cases := s.local.cases[caseId := c]))
  }

  datatype Step =
    | StepEnqueue(template: Template, actor: string, message: string, now: real)
    | StepRequeue(id: string, actor: string, now: real)
    | StepReviewCase(caseId: string, newCase: Case)
    | StepCallback(eventId: string)
    | StepDeliver(request: Request, refundId: string, eventId: string, now: real)
    | StepSetFault(orderId: string, fault: Fault)
    | StepCrash(w: nat)
    | StepPollOutbox(w: nat, rows: seq<(string, Row<Command>)>, now: real)
    | StepTryOutbox(w: nat, owner: string, now: real, lease: real)
    | StepMark(w: nat, now: real)
    | StepCloseDelivered(w: nat, checked: real, now: real)
    | StepCheck(w: nat, now: real)
    | StepSend(w: nat)
    | StepReceiveReply(w: nat, receipt: Receipt)
    | StepCallFails(w: nat, code: string)
    | StepApplyReply(w: nat, eventId: string, lost: bool)
    | StepDoubt(w: nat, now: real)
    | StepCloseFailed(w: nat, checked: real, now: real)
    | StepEscalate(w: nat)
    | StepPollJobs(w: nat, jobRows: seq<(string, Row<string>)>, now: real)
    | StepTryJob(w: nat, owner: string, now: real, lease: real)
    | StepStartSweep(w: nat, ids: seq<string>)
    | StepSweepNext(w: nat)
    | StepQuery(w: nat)
    | StepQueryFails(w: nat, code: string)
    | StepCheckJob(w: nat, now: real)
    | StepApplyAnswer(w: nat, eventId: string, lost: bool)
    | StepCloseJob(w: nat, checked: real, now: real)
    | StepPollRefunds(w: nat, refundRows: seq<(string, Refund)>, now: real)
    | StepSettleNext(w: nat, eventId: string)

  /** A step whose guard is false leaves the system as it is. */
  ghost function Do(s: System, step: Step): System
  {
    match step
    case StepEnqueue(t, actor, message, now) =>
      s.(local := EnqueueTx(s.local, t, actor, PROVIDER, message, now).0)
    case StepRequeue(id, actor, now) => s.(local := RequeueTx(s.local, id, actor, PROVIDER, now).0)
    case StepReviewCase(caseId, c) => ReviewCase(s, caseId, c)
    case StepCallback(eventId) => Callback(s, eventId)
    case StepDeliver(q, refundId, eventId, now) => Deliver(s, q, refundId, eventId, now)
    case StepSetFault(orderId, fault) => SetFault(s, orderId, fault)
    case StepCrash(w) => Goto(s, w, Idle)
    case StepPollOutbox(w, rows, now) => PollOutbox(s, w, rows, now)
    case StepTryOutbox(w, owner, now, lease) => TryOutbox(s, w, owner, now, lease)
    case StepMark(w, now) => Mark(s, w, now)
    case StepCloseDelivered(w, checked, now) => CloseDelivered(s, w, checked, now)
    case StepCheck(w, now) => Check(s, w, now)
    case StepSend(w) => Send(s, w)
    case StepReceiveReply(w, r) => ReceiveReply(s, w, r)
    case StepCallFails(w, code) => CallFails(s, w, code)
    case StepApplyReply(w, eventId, lost) => ApplyReply(s, w, eventId, lost)
    case StepDoubt(w, now) => Doubt(s, w, now)
    case StepCloseFailed(w, checked, now) => CloseFailed(s, w, checked, now)
    case StepEscalate(w) => Escalate(s, w)
    case StepPollJobs(w, rows, now) => PollJobs(s, w, rows, now)
    case StepTryJob(w, owner, now, lease) => TryJob(s, w, owner, now, lease)
    case StepStartSweep(w, ids) => StartSweep(s, w, ids)
    case StepSweepNext(w) => SweepNext(s, w)
    case StepQuery(w) => Query(s, w)
    case StepQueryFails(w, code) => QueryFails(s, w, code)
    case StepCheckJob(w, now) => CheckJob(s, w, now)
    case StepApplyAnswer(w, eventId, lost) => ApplyAnswer(s, w, eventId, lost)
    case StepCloseJob(w, checked, now) => CloseJob(s, w, checked, now)
    case StepPollRefunds(w, rows, now) => PollRefunds(s, w, rows, now)
    case StepSettleNext(w, eventId) => SettleNext(s, w, eventId)
  }

  ghost function Run(s: System, steps: seq<Step>): System
    decreases |steps|
  {
    if steps == [] then s else Run(Do(s, steps[0]), steps[1..])
  }

  /** Nothing queued, nothing at the provider; orders and cases are arbitrary. */
  ghost predicate Initial(s: System)
  {
    && s.local.ops == map[] && s.local.outbox == map[] && s.local.jobs == map[] && s.local.inbox == map[]
    && s.world.store.refunds == map[] && s.world.store.events == map[] && s.world.issued == {}
    && s.workers == map[] && s.requests == {} && s.replies == {} && s.grants == map[]
  }
}
