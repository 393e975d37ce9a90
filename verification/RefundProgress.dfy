/**
 Left alone, the workers of the refund protocol get there: from any reachable state, one undisturbed
 dispatch of a due message, or one undisturbed round of a due query, carries the provider's verdict
 into operation, case, message and job.
 */
module RefundProgress {
  import opened Wrappers
  import opened LeaseQueues
  import opened LeaseTiming
  import opened RefundTables
  import opened SandboxStores
  import opened RefundInvariant
  import opened RefundProtocol
  import opened RefundSafety
  import opened RefundSteps
  import opened RefundEffects

  lemma RunFirst(s: System, step: Step, rest: seq<Step>)
    ensures Run(s, [step] + rest) == Run(Do(s, step), rest)
  {
    assert ([step] + rest)[0] == step && ([step] + rest)[1..] == rest;
  }

  /** Operation, case, message and job say that the refund has succeeded. */
  predicate Settled(s: System, id: string, m: string, r: Receipt)
  {
    var l := s.local;
    && id in l.ops && l.ops[id].status == OpSucceeded && l.ops[id].result == Some(r)
    && l.ops[id].caseId in l.cases && l.cases[l.ops[id].caseId].status == Completed && l.cases[l.ops[id].caseId].result == Some(r)
    && m in l.outbox && l.outbox[m].status == Sent
    && id in l.jobs && l.jobs[id].status == Sent
  }

  /** What the tables say of an operation nothing has been heard about, with its message and its job. */
  ghost predicate Quiet(l: Tables, id: string, m: string)
  {
    && UniqueKeys(l.ops) && id in l.ops && m in l.outbox && id in l.jobs
    && var o := l.ops[id];
    && o.provider == PROVIDER && o.request.key == o.key && o.providerVersion == 0 && o.providerReference == ""
    && o.status in {OpPending, OpRunning, OpUnknown}
    && o.caseId in l.cases && l.cases[o.caseId].userId == o.userId
    && l.outbox[m].aggregate == id && l.outbox[m].payload == o.request && l.jobs[id].aggregate == id
  }

  /** Every reachable state is quiet about an operation that has not been answered and waits for no human. */
  lemma QuietWhenUnanswered(s: System, id: string, m: string)
    requires SysInv(s) && id in s.local.ops && m in s.local.outbox && s.local.outbox[m].aggregate == id
    requires s.local.ops[id].providerVersion == 0 && s.local.ops[id].status != OpNeedsReconciliation
    ensures Quiet(s.local, id, m) && s.local.outbox[m].maxAttempts == 8
    ensures s.local.outbox[m].status == Pending ==> s.local.outbox[m].attempt < 8
    ensures s.local.jobs[id].status == Pending ==> s.local.jobs[id].attempt < s.local.jobs[id].maxAttempts
    ensures s.local.jobs[id].payload == s.local.ops[id].request.key
  {
    assert OpOk(s.local, s.world, id) && OutboxRowOk(s.local, s.world, s.local.outbox[m]) && JobRowOk(s.local, id, s.local.jobs[id]);
  }

  /** A worker has moved on; tables, provider and network are as they were. */
  predicate MovedTo(s: System, s': System, w: nat, worker: Worker)
  {
    At(s', w) == worker && s'.local == s.local && s'.world == s.world && s'.requests == s.requests && s'.replies == s.replies
  }

  /** A succeeded receipt for a quiet operation is taken, and settles everything. */
  lemma ReceiptSettles(s: System, s': System, id: string, m: string, r: Receipt, eventId: string, digest: Digest)
    requires Quiet(s.local, id, m) && (PROVIDER, eventId) !in s.local.inbox
    requires r.command == s.local.ops[id].request && r.provider == PROVIDER && r.status == Succeeded && r.version >= 1
    requires s.local.cases[s.local.ops[id].caseId].amountCents == r.amountCents
    requires s'.local == ApplyReceiptTx(s.local, r, eventId, digest).0
    ensures ApplyReceiptTx(s.local, r, eventId, digest).1 == Done(Accepted(Applied)) && Settled(s', id, m, r)
  {
    assert Names(s.local, r, id);
    ReceiptAcceptedIff(s.local, r, eventId, digest, id);
    ReceiptWrites(s.local, r, eventId, digest, id);
  }

  // ----- dispatch -----

  /** What a worker holds after claiming the message. */
  function Claimed(l: Tables, m: string, owner: string, now: real, lease: real): Lease<Command>
    requires m in l.outbox
  {
    Lease(m, ClaimWrites(l.outbox[m], l.outbox[m], owner, now, lease))
  }

  lemma Polls(s: System, w: nat, m: string, now: real)
    requires At(s, w) == Idle && m in s.local.outbox
    requires s.local.outbox[m].status == Pending && s.local.outbox[m].nextAttemptAt <= now
    ensures var rows := [(m, s.local.outbox[m])]; MovedTo(s, Do(s, StepPollOutbox(w, rows, now)), w, Polling(rows))
  {}

  lemma Claims(s: System, w: nat, m: string, owner: string, now: real, lease: real)
    requires m in s.local.outbox && At(s, w) == Polling([(m, s.local.outbox[m])])
    requires s.local.outbox[m].attempt < s.local.outbox[m].maxAttempts
    ensures var c := Claimed(s.local, m, owner, now, lease); var s' := Do(s, StepTryOutbox(w, owner, now, lease));
      MovedTo(s.(local := s.local.(outbox := s.local.outbox[m := c.row])), s', w, Marking(c))
  {}

  lemma Marks(s: System, w: nat, m: string, c: Lease<Command>, now: real)
    requires At(s, w) == Marking(c) && c.id == m && Quiet(s.local, c.row.aggregate, m) && Owned(s.local.outbox, c, now)
    ensures var s' := Do(s, StepMark(w, now)); var id := c.row.aggregate;
      && MovedTo(s.(local := s'.local), s', w, CheckingBefore(c))
      && s'.local == s.local.(ops := s'.local.ops) && Quiet(s'.local, id, m)
      && s'.local.ops == s.local.ops[id := s'.local.ops[id]] && s'.local.ops[id].caseId == s.local.ops[id].caseId
  {
    var s' := Do(s, StepMark(w, now));
    forall a, b | SameKey(s'.local.ops, a, b) ensures a == b { assert SameKey(s.local.ops, a, b); }
  }

  lemma Checks(s: System, w: nat, c: Lease<Command>, now: real)
    requires Owned(s.local.outbox, c, now)
    ensures At(s, w) == CheckingBefore(c) ==> MovedTo(s, Do(s, StepCheck(w, now)), w, Sending(c))
    ensures At(s, w).CheckingAfter? && At(s, w).claim == c ==> MovedTo(s, Do(s, StepCheck(w, now)), w, Applying(c, At(s, w).receipt))
  {}

  lemma Sends(s: System, w: nat, c: Lease<Command>)
    requires At(s, w) == Sending(c)
    ensures var q := Request(c.id, c.row.fence, c.row.payload);
      MovedTo(s.(requests := s.requests + {q}), Do(s, StepSend(w)), w, Waiting(c))
  {}

  /** The provider can take the refund: known order of this user, nothing there yet, and no fault set. */
  predicate Acceptable(p: Store, c: Command, refundId: string, eventId: string)
  {
    && c.orderId in p.orders && p.orders[c.orderId].ownerId == c.userId
    && c.key !in p.refunds && !Taken(p.refunds, c) && eventId !in p.events && refundId != ""
    && FaultOf(p, c.orderId).mode == Normal
  }

  lemma Delivers(s: System, q: Request, refundId: string, eventId: string, now: real)
    requires q in s.requests && Acceptable(s.world.store, q.command, refundId, eventId)
    ensures var s' := Do(s, StepDeliver(q, refundId, eventId, now)); var r := FirstReceipt(s.world.store, q.command, refundId);
      && (q, r) in s'.replies && s'.local == s.local && s'.workers == s.workers
      && r.status == Succeeded && r.command == q.command && r.version == 1 && r.provider == PROVIDER
      && r.amountCents == s.world.store.orders[q.command.orderId].amountCents
  {
    var p := s.world.store;
    forall k | k in p.refunds ensures p.refunds[k].command.orderId != q.command.orderId { assert !Collides(p.refunds[k], q.command); }
    FirstStatus(p, q.command, refundId);
  }

  lemma Receives(s: System, w: nat, c: Lease<Command>, r: Receipt)
    requires At(s, w) == Waiting(c) && (Request(c.id, c.row.fence, c.row.payload), r) in s.replies
    ensures MovedTo(s, Do(s, StepReceiveReply(w, r)), w, CheckingAfter(c, r))
  {}

  lemma Applies(s: System, w: nat, m: string, c: Lease<Command>, r: Receipt, eventId: string)
    requires At(s, w) == Applying(c, r) && Quiet(s.local, c.row.aggregate, m) && (PROVIDER, eventId) !in s.local.inbox
    requires r.command == s.local.ops[c.row.aggregate].request && r.provider == PROVIDER && r.status == Succeeded && r.version >= 1
    requires s.local.cases[s.local.ops[c.row.aggregate].caseId].amountCents == r.amountCents
    ensures var s' := Do(s, StepApplyReply(w, eventId, false)); Settled(s', c.row.aggregate, m, r) && At(s', w) == Idle
  {
    ReceiptSettles(s, Do(s, StepApplyReply(w, eventId, false)), c.row.aggregate, m, r, eventId, OfReceipt(r));
  }

  /** Worker `w` is idle, message `m` is due, and nothing has been heard of its refund. */
  ghost predicate Ready(s: System, w: nat, id: string, m: string, now: real)
  {
    && SysInv(s) && At(s, w) == Idle && id in s.local.ops && m in s.local.outbox && s.local.outbox[m].aggregate == id
    && s.local.outbox[m].status == Pending && s.local.outbox[m].nextAttemptAt <= now
    && s.local.ops[id].providerVersion == 0 && s.local.ops[id].status != OpNeedsReconciliation
  }

  lemma ClaimAndMark(s: System, w: nat, id: string, m: string, owner: string, now: real, lease: real)
    requires Ready(s, w, id, m, now) && lease > 0.0
    ensures var c := Claimed(s.local, m, owner, now, lease); var rows := [(m, s.local.outbox[m])];
      var s4 := Do(Do(Do(Do(s, StepPollOutbox(w, rows, now)), StepTryOutbox(w, owner, now, lease)), StepMark(w, now)), StepCheck(w, now));
      && At(s4, w) == Sending(c) && c.row.aggregate == id && Owned(s4.local.outbox, c, now) && Quiet(s4.local, id, m)
      && s4.world == s.world && s4.local.inbox == s.local.inbox && s4.local.cases == s.local.cases
      && c.row.payload == s4.local.ops[id].request == s.local.ops[id].request && s4.local.ops[id].caseId == s.local.ops[id].caseId
  {
    QuietWhenUnanswered(s, id, m);
    var rows, c := [(m, s.local.outbox[m])], Claimed(s.local, m, owner, now, lease);
    Polls(s, w, m, now);
    var s1 := Do(s, StepPollOutbox(w, rows, now));
    Claims(s1, w, m, owner, now, lease);
    var s2 := Do(s1, StepTryOutbox(w, owner, now, lease));
    assert Quiet(s2.local, id, m) && Owned(s2.local.outbox, c, now);
    Marks(s2, w, m, c, now);
    var s3 := Do(s2, StepMark(w, now));
    Checks(s3, w, c, now);
  }

  lemma SendAndApply(s: System, w: nat, id: string, m: string, c: Lease<Command>, now: real, refundId: string, eventId: string, inboxId: string)
    requires At(s, w) == Sending(c) && c.row.aggregate == id && Owned(s.local.outbox, c, now) && Quiet(s.local, id, m)
    requires c.row.payload == s.local.ops[id].request && (PROVIDER, inboxId) !in s.local.inbox
    requires Acceptable(s.world.store, c.row.payload, refundId, eventId)
    requires s.local.cases[s.local.ops[id].caseId].amountCents == s.world.store.orders[c.row.payload.orderId].amountCents
    ensures var q := Request(c.id, c.row.fence, c.row.payload); var r := FirstReceipt(s.world.store, c.row.payload, refundId);
      var s4 := Do(Do(Do(Do(s, StepSend(w)), StepDeliver(q, refundId, eventId, now)), StepReceiveReply(w, r)), StepCheck(w, now));
      var s5 := Do(s4, StepApplyReply(w, inboxId, false));
      Settled(s5, id, m, r) && At(s5, w) == Idle
  {
    var q := Request(c.id, c.row.fence, c.row.payload);
    var r := FirstReceipt(s.world.store, c.row.payload, refundId);
    var s1 := Do(s, StepSend(w));
    Sends(s, w, c);
    Delivers(s1, q, refundId, eventId, now);
    var s2 := Do(s1, StepDeliver(q, refundId, eventId, now));
    assert At(s2, w) == Waiting(c);
    Receives(s2, w, c, r);
    var s3 := Do(s2, StepReceiveReply(w, r));
    Checks(s3, w, c, now);
    Applies(Do(s3, StepCheck(w, now)), w, m, c, r, inboxId);
  }

  /** The steps of one undisturbed dispatch, each a single transaction or message. */
  function Dispatch(w: nat, row: Row<Command>, c: Lease<Command>, r: Receipt, owner: string, now: real, lease: real,
      refundId: string, eventId: string, inboxId: string): seq<Step>
  {
    [StepPollOutbox(w, [(c.id, row)], now)] + ([StepTryOutbox(w, owner, now, lease)] + ([StepMark(w, now)] + ([StepCheck(w, now)]
    + ([StepSend(w)] + ([StepDeliver(Request(c.id, c.row.fence, c.row.payload), refundId, eventId, now)] + ([StepReceiveReply(w, r)]
    + ([StepCheck(w, now)] + ([StepApplyReply(w, inboxId, false)] + []))))))))
  }

  /**
   One dispatch that nobody disturbs settles a refund: whatever has happened before, if a message is due
   and the provider can take its refund, then claiming, marking, checking, sending, one delivery and the
   reply leave operation and case with the provider's success and close message and job.
   */
  lemma UndisturbedDispatchSettles(s: System, w: nat, id: string, m: string, owner: string, now: real, lease: real,
      refundId: string, eventId: string, inboxId: string)
    requires Ready(s, w, id, m, now) && lease > 0.0 && (PROVIDER, inboxId) !in s.local.inbox
    requires Acceptable(s.world.store, s.local.ops[id].request, refundId, eventId)
    requires s.local.ops[id].caseId in s.local.cases
    requires s.local.cases[s.local.ops[id].caseId].amountCents == s.world.store.orders[s.local.ops[id].request.orderId].amountCents
    ensures var c := Claimed(s.local, m, owner, now, lease); var r := FirstReceipt(s.world.store, s.local.ops[id].request, refundId);
      var end := Run(s, Dispatch(w, s.local.outbox[m], c, r, owner, now, lease, refundId, eventId, inboxId));
      Settled(end, id, m, r) && At(end, w) == Idle
  {
    var c, row := Claimed(s.local, m, owner, now, lease), s.local.outbox[m];
    var r := FirstReceipt(s.world.store, s.local.ops[id].request, refundId);
    ClaimAndMark(s, w, id, m, owner, now, lease);
    var s4 := Do(Do(Do(Do(s, StepPollOutbox(w, [(m, row)], now)), StepTryOutbox(w, owner, now, lease)), StepMark(w, now)), StepCheck(w, now));
    SendAndApply(s4, w, id, m, c, now, refundId, eventId, inboxId);
    NineSteps(s, StepPollOutbox(w, [(m, row)], now), StepTryOutbox(w, owner, now, lease), StepMark(w, now), StepCheck(w, now), StepSend(w),
      StepDeliver(Request(c.id, c.row.fence, c.row.payload), refundId, eventId, now), StepReceiveReply(w, r), StepCheck(w, now),
      StepApplyReply(w, inboxId, false));
  }

  lemma FiveSteps(s: System, a: Step, b: Step, c: Step, d: Step, e: Step)
    ensures Run(s, [a] + ([b] + ([c] + ([d] + ([e] + []))))) == Do(Do(Do(Do(Do(s, a), b), c), d), e)
  {
    RunFirst(s, a, [b] + ([c] + ([d] + ([e] + []))));
    RunFirst(Do(s, a), b, [c] + ([d] + ([e] + [])));
    RunFirst(Do(Do(s, a), b), c, [d] + ([e] + []));
    RunFirst(Do(Do(Do(s, a), b), c), d, [e] + []);
    RunFirst(Do(Do(Do(Do(s, a), b), c), d), e, []);
  }

  lemma NineSteps(s: System, a: Step, b: Step, c: Step, d: Step, e: Step, f: Step, g: Step, h: Step, i: Step)
    ensures Run(s, [a] + ([b] + ([c] + ([d] + ([e] + ([f] + ([g] + ([h] + ([i] + [])))))))))
         == Do(Do(Do(Do(Do(Do(Do(Do(Do(s, a), b), c), d), e), f), g), h), i)
  {
    var five := [e] + ([f] + ([g] + ([h] + ([i] + []))));
    RunFirst(s, a, [b] + ([c] + ([d] + five)));
    RunFirst(Do(s, a), b, [c] + ([d] + five));
    RunFirst(Do(Do(s, a), b), c, [d] + five);
    RunFirst(Do(Do(Do(s, a), b), c), d, five);
    FiveSteps(Do(Do(Do(Do(s, a), b), c), d), e, f, g, h, i);
  }

  // ----- reconciliation -----

  /** Worker `w` is idle, the query job of an unanswered operation is due, and the provider has its success. */
  ghost predicate Answerable(s: System, w: nat, id: string, m: string, now: real, r: Receipt)
  {
    && SysInv(s) && At(s, w) == Idle && id in s.local.ops && m in s.local.outbox && s.local.outbox[m].aggregate == id
    && s.local.ops[id].providerVersion == 0 && s.local.ops[id].status != OpNeedsReconciliation
    && id in s.local.jobs && s.local.jobs[id].status == Pending && s.local.jobs[id].nextAttemptAt <= now
    && s.local.ops[id].caseId in s.local.cases && s.local.cases[s.local.ops[id].caseId].amountCents == r.amountCents
    && GetRefund(s.world.store, s.local.ops[id].request.key) == Some(r)
    && r.status == Succeeded && r.command == s.local.ops[id].request && r.provider == PROVIDER && r.version >= 1
  }

  lemma PollsJob(s: System, w: nat, id: string, now: real)
    requires At(s, w) == Idle && id in s.local.jobs && s.local.jobs[id].status == Pending && s.local.jobs[id].nextAttemptAt <= now
    ensures var rows := [(id, s.local.jobs[id])]; MovedTo(s, Do(s, StepPollJobs(w, rows, now)), w, PollingJobs(rows))
  {}

  function ClaimedJob(l: Tables, id: string, owner: string, now: real, lease: real): Lease<string>
    requires id in l.jobs
  {
    Lease(id, ClaimWrites(l.jobs[id], l.jobs[id], owner, now, lease))
  }

  lemma ClaimsJob(s: System, w: nat, id: string, owner: string, now: real, lease: real)
    requires id in s.local.jobs && At(s, w) == PollingJobs([(id, s.local.jobs[id])])
    requires s.local.jobs[id].attempt < s.local.jobs[id].maxAttempts
    ensures var j := ClaimedJob(s.local, id, owner, now, lease); var s' := Do(s, StepTryJob(w, owner, now, lease));
      MovedTo(s.(local := s.local.(jobs := s.local.jobs[id := j.row])), s', w, Querying(j))
  {}

  lemma Queries(s: System, w: nat, j: Lease<string>)
    requires At(s, w) == Querying(j)
    ensures MovedTo(s, Do(s, StepQuery(w)), w, CheckingJob(j, GetRefund(s.world.store, j.row.payload)))
  {}

  lemma ChecksJob(s: System, w: nat, j: Lease<string>, r: Receipt, now: real)
    requires At(s, w) == CheckingJob(j, Some(r)) && Owned(s.local.jobs, j, now)
    ensures MovedTo(s, Do(s, StepCheckJob(w, now)), w, ApplyingJob(j, r))
  {}

  lemma AppliesAnswer(s: System, w: nat, id: string, m: string, j: Lease<string>, r: Receipt, eventId: string)
    requires At(s, w) == ApplyingJob(j, r) && Quiet(s.local, id, m) && (PROVIDER, eventId) !in s.local.inbox
    requires r.command == s.local.ops[id].request && r.provider == PROVIDER && r.status == Succeeded && r.version >= 1
    requires s.local.cases[s.local.ops[id].caseId].amountCents == r.amountCents
    ensures var s' := Do(s, StepApplyAnswer(w, eventId, false)); Settled(s', id, m, r) && At(s', w) == Idle
  {
    ReceiptSettles(s, Do(s, StepApplyAnswer(w, eventId, false)), id, m, r, eventId, OfReceipt(r));
  }

  /**
   One undisturbed query settles a refund whose reply was lost: the provider's success reaches operation
   and case, and message and job are closed.
   */
  lemma UndisturbedQuerySettles(s: System, w: nat, id: string, m: string, owner: string, now: real, lease: real, inboxId: string, r: Receipt)
    requires Answerable(s, w, id, m, now, r) && lease > 0.0 && (PROVIDER, inboxId) !in s.local.inbox
    ensures var end := Run(s, [StepPollJobs(w, [(id, s.local.jobs[id])], now)] + ([StepTryJob(w, owner, now, lease)] + ([StepQuery(w)]
        + ([StepCheckJob(w, now)] + ([StepApplyAnswer(w, inboxId, false)] + [])))));
      Settled(end, id, m, r) && At(end, w) == Idle
  {
    QuietWhenUnanswered(s, id, m);
    var a, b := StepPollJobs(w, [(id, s.local.jobs[id])], now), StepTryJob(w, owner, now, lease);
    var j := ClaimedJob(s.local, id, owner, now, lease);
    var s1 := Do(s, a);
    PollsJob(s, w, id, now);
    var s2 := Do(s1, b);
    ClaimsJob(s1, w, id, owner, now, lease);
    Queries(s2, w, j);
    var s3 := Do(s2, StepQuery(w));
    assert Owned(s3.local.jobs, j, now);
    ChecksJob(s3, w, j, r, now);
    AppliesAnswer(Do(s3, StepCheckJob(w, now)), w, id, m, j, r, inboxId);
    FiveSteps(s, a, b, StepQuery(w), StepCheckJob(w, now), StepApplyAnswer(w, inboxId, false));
  }

  /** So does a callback on its own, when nothing else has reached the workflow. */
  lemma CallbackSettles(s: System, id: string, m: string, eventId: string)
    requires Quiet(s.local, id, m) && (PROVIDER, eventId) !in s.local.inbox
    requires eventId in s.world.store.events && !s.world.store.events[eventId].dropped
    requires var r := s.world.store.events[eventId].receipt;
      && r.command == s.local.ops[id].request && r.provider == PROVIDER && r.status == Succeeded && r.version >= 1
      && s.local.cases[s.local.ops[id].caseId].amountCents == r.amountCents
    ensures Settled(Do(s, StepCallback(eventId)), id, m, s.world.store.events[eventId].receipt)
    ensures var s' := Do(s, StepCallback(eventId)); s' == s.(local := s'.local)
  {
    var r := s.world.store.events[eventId].receipt;
    ReceiptSettles(s, Do(s, StepCallback(eventId)), id, m, r, eventId, OfEvent(eventId, r));
  }

  // ----- failing -----

  /** What a failed claim leaves: a row that is due after `wait` or, without attempts left, dead; and who then knows of it. */
  ghost predicate GivenBack<P>(row: Row<P>, row': Row<P>, code: string, next: real)
  {
    && row'.error == code && row'.attempt == row.attempt && row'.maxAttempts == row.maxAttempts
    && (if row.maxAttempts <= row.attempt then row'.status == Dead else row'.status == Pending && DueFrom(row', next))
  }

  lemma FourSteps(s: System, a: Step, b: Step, c: Step, d: Step)
    ensures Run(s, [a] + ([b] + ([c] + ([d] + [])))) == Do(Do(Do(Do(s, a), b), c), d)
  {
    RunFirst(s, a, [b] + ([c] + ([d] + [])));
    RunFirst(Do(s, a), b, [c] + ([d] + []));
    RunFirst(Do(Do(s, a), b), c, [d] + []);
    RunFirst(Do(Do(Do(s, a), b), c), d, []);
  }

  lemma ThreeSteps(s: System, a: Step, b: Step, c: Step)
    ensures Run(s, [a] + ([b] + ([c] + []))) == Do(Do(Do(s, a), b), c)
  {
    RunFirst(s, a, [b] + ([c] + []));
    RunFirst(Do(s, a), b, [c] + []);
    RunFirst(Do(Do(s, a), b), c, []);
  }

  lemma Fails(s: System, w: nat, c: Lease<Command>, code: string)
    requires At(s, w) == Sending(c) || At(s, w) == Waiting(c)
    requires code != ""
    ensures MovedTo(s, Do(s, StepCallFails(w, code)), w, Doubting(c, code))
  {}

  lemma Doubts(s: System, w: nat, c: Lease<Command>, code: string, now: real)
    requires At(s, w) == Doubting(c, code) && Owned(s.local.outbox, c, now)
    requires c.row.aggregate in s.local.ops && Undecided(s.local.ops[c.row.aggregate])
    ensures var s' := Do(s, StepDoubt(w, now)); var id := c.row.aggregate;
      && MovedTo(s.(local := s'.local), s', w, ClosingFailed(c, code))
      && s'.local == s.local.(ops := s.local.ops[id := s'.local.ops[id]])
      && s'.local.ops[id].status == OpUnknown && s'.local.ops[id].error == code
  {}

  lemma GivesBack(s: System, w: nat, c: Lease<Command>, code: string, now: real, later: real)
    requires At(s, w) == ClosingFailed(c, code) && code != "" && Owned(s.local.outbox, c, now)
    ensures var s' := Do(s, StepCloseFailed(w, now, later)); var row := s.local.outbox[c.id];
      && s'.local == s.local.(outbox := s.local.outbox[c.id := s'.local.outbox[c.id]]) && s'.world == s.world
      && GivenBack(row, s'.local.outbox[c.id], code, later + Backoff(row.attempt, None))
      && At(s', w) == if row.maxAttempts <= row.attempt then Escalating(c.row.aggregate, code) else Idle
  {
    FinishReschedules(s.local.outbox, c, code, None, now, later);
  }

  lemma Escalates(s: System, w: nat, id: string, code: string)
    requires At(s, w) == Idle || At(s, w) == Escalating(id, code)
    ensures var s' := Do(s, StepEscalate(w));
      && At(s', w) == Idle && s'.world == s.world && s'.local == s.local.(ops := s'.local.ops)
      && (At(s, w).Idle? || id !in s.local.ops || !Undecided(s.local.ops[id]) ==> s'.local == s.local)
      && (At(s, w).Escalating? && id in s.local.ops && Undecided(s.local.ops[id]) ==>
            && s'.local.ops == s.local.ops[id := s'.local.ops[id]]
            && s'.local.ops[id].status == OpNeedsReconciliation && s'.local.ops[id].error == code)
  {}

  /**
   A dispatch whose call fails says so: the operation is in doubt with the code of the failure and the message
   is tried again after the backoff, or, when that was the last attempt, both are left to a human.
   */
  lemma UndisturbedFailureIsRecorded(s: System, w: nat, c: Lease<Command>, code: string, now: real, later: real)
    requires At(s, w) == Sending(c) || At(s, w) == Waiting(c)
    requires code != "" && Owned(s.local.outbox, c, now)
    requires c.row.aggregate in s.local.ops && Undecided(s.local.ops[c.row.aggregate])
    ensures var end := Run(s, [StepCallFails(w, code)] + ([StepDoubt(w, now)] + ([StepCloseFailed(w, now, later)] + ([StepEscalate(w)] + []))));
      var row := s.local.outbox[c.id]; var id := c.row.aggregate;
      && At(end, w) == Idle && end.world == s.world
      && id in end.local.ops && c.id in end.local.outbox
      && end.local == s.local.(ops := s.local.ops[id := end.local.ops[id]], outbox := s.local.outbox[c.id := end.local.outbox[c.id]])
      && end.local.ops[id].error == code
      && end.local.ops[id].status == (if row.maxAttempts <= row.attempt then OpNeedsReconciliation else OpUnknown)
      && GivenBack(row, end.local.outbox[c.id], code, later + Backoff(row.attempt, None))
  {
    var s1 := Do(s, StepCallFails(w, code));
    Fails(s, w, c, code);
    var s2 := Do(s1, StepDoubt(w, now));
    Doubts(s1, w, c, code, now);
    var s3 := Do(s2, StepCloseFailed(w, now, later));
    GivesBack(s2, w, c, code, now, later);
    Escalates(s3, w, c.row.aggregate, code);
    FourSteps(s, StepCallFails(w, code), StepDoubt(w, now), StepCloseFailed(w, now, later), StepEscalate(w));
  }

  lemma ClosesJob(s: System, w: nat, j: Lease<string>, code: string, delay: Option<real>, escalation: string, now: real, later: real)
    requires At(s, w) == ClosingJob(j, code, delay, escalation) && code != "" && Owned(s.local.jobs, j, now)
    ensures var s' := Do(s, StepCloseJob(w, now, later)); var row := s.local.jobs[j.id];
      && s'.local == s.local.(jobs := s.local.jobs[j.id := s'.local.jobs[j.id]]) && s'.world == s.world
      && GivenBack(row, s'.local.jobs[j.id], code, later + if delay.Some? then delay.value else Backoff(row.attempt, None))
      && At(s', w) == if row.maxAttempts <= row.attempt then Escalating(j.row.aggregate, escalation) else Idle
  {
    FinishReschedules(s.local.jobs, j, code, delay, now, later);
  }

  /** What a query that brought no verdict leaves of the operation. */
  predicate LeftOpen(l: Tables, l': Tables, j: Lease<string>, escalation: string)
    requires j.id in l.jobs
  {
    var id := j.row.aggregate;
    if l.jobs[j.id].maxAttempts <= l.jobs[j.id].attempt && id in l.ops && Undecided(l.ops[id])
    then id in l'.ops && l'.ops == l.ops[id := l'.ops[id]] && l'.ops[id].status == OpNeedsReconciliation && l'.ops[id].error == escalation
    else l'.ops == l.ops
  }

  /** A query that fails is repeated after the backoff; the last one leaves an undecided operation to a human. */
  lemma UndisturbedQueryFailureIsRecorded(s: System, w: nat, j: Lease<string>, code: string, now: real, later: real)
    requires At(s, w) == Querying(j) && code != "" && Owned(s.local.jobs, j, now)
    ensures var end := Run(s, [StepQueryFails(w, code)] + ([StepCloseJob(w, now, later)] + ([StepEscalate(w)] + [])));
      var row := s.local.jobs[j.id];
      && At(end, w) == Idle && end.world == s.world
      && j.id in end.local.jobs
      && end.local == s.local.(ops := end.local.ops, jobs := s.local.jobs[j.id := end.local.jobs[j.id]])
      && GivenBack(row, end.local.jobs[j.id], code, later + Backoff(row.attempt, None))
      && LeftOpen(s.local, end.local, j, code)
  {
    var s1 := Do(s, StepQueryFails(w, code));
    assert MovedTo(s, s1, w, ClosingJob(j, code, None, code));
    var s2 := Do(s1, StepCloseJob(w, now, later));
    ClosesJob(s1, w, j, code, None, code, now, later);
    Escalates(s2, w, j.row.aggregate, code);
    ThreeSteps(s, StepQueryFails(w, code), StepCloseJob(w, now, later), StepEscalate(w));
  }

  /** A query that finds no refund is repeated two seconds later; the last one leaves the operation to a human. */
  lemma UndisturbedEmptyQueryIsRepeated(s: System, w: nat, j: Lease<string>, now: real, later: real)
    requires At(s, w) == CheckingJob(j, None) && Owned(s.local.jobs, j, now)
    ensures var end := Run(s, [StepCheckJob(w, now)] + ([StepCloseJob(w, now, later)] + ([StepEscalate(w)] + [])));
      && At(end, w) == Idle && end.world == s.world
      && j.id in end.local.jobs
      && end.local == s.local.(ops := end.local.ops, jobs := s.local.jobs[j.id := end.local.jobs[j.id]])
      && GivenBack(s.local.jobs[j.id], end.local.jobs[j.id], "REFUND_NOT_FINAL", later + 2.0)
      && LeftOpen(s.local, end.local, j, "RECONCILIATION_EXHAUSTED")
  {
    var s1 := Do(s, StepCheckJob(w, now));
    assert MovedTo(s, s1, w, ClosingJob(j, "REFUND_NOT_FINAL", Some(2.0), "RECONCILIATION_EXHAUSTED"));
    var s2 := Do(s1, StepCloseJob(w, now, later));
    ClosesJob(s1, w, j, "REFUND_NOT_FINAL", Some(2.0), "RECONCILIATION_EXHAUSTED", now, later);
    Escalates(s2, w, j.row.aggregate, "RECONCILIATION_EXHAUSTED");
    ThreeSteps(s, StepCheckJob(w, now), StepCloseJob(w, now, later), StepEscalate(w));
  }

  /** When no query is due, an operation whose query died with its worker is left to a human. */
  lemma UndisturbedSweepLeavesToHuman(s: System, w: nat, id: string, now: real)
    requires At(s, w) == Idle && id in s.local.jobs && s.local.jobs[id].status == Dead
    requires id in s.local.ops && Undecided(s.local.ops[id])
    ensures var end := Run(s, [StepPollJobs(w, [], now)] + ([StepStartSweep(w, [id])] + ([StepSweepNext(w)] + ([StepSweepNext(w)] + []))));
      && At(end, w) == Idle && end.world == s.world
      && id in end.local.ops && end.local == s.local.(ops := s.local.ops[id := end.local.ops[id]])
      && end.local.ops[id].status == OpNeedsReconciliation && end.local.ops[id].error == "RECONCILIATION_EXHAUSTED"
  {
    var s1 := Do(s, StepPollJobs(w, [], now));
    PollsNothing(s, w, now);
    var s2 := Do(s1, StepStartSweep(w, [id]));
    StartsSweep(s1, w, id);
    var s3 := Do(s2, StepSweepNext(w));
    Sweeps(s2, w, id);
    EndsSweep(s3, w);
    FourSteps(s, StepPollJobs(w, [], now), StepStartSweep(w, [id]), StepSweepNext(w), StepSweepNext(w));
  }

  lemma PollsNothing(s: System, w: nat, now: real)
    requires At(s, w) == Idle
    ensures MovedTo(s, Do(s, StepPollJobs(w, [], now)), w, PollingJobs([]))
  {}

  lemma StartsSweep(s: System, w: nat, id: string)
    requires At(s, w) == PollingJobs([]) && id in s.local.jobs && s.local.jobs[id].status == Dead
    requires id in s.local.ops && Undecided(s.local.ops[id])
    ensures MovedTo(s, Do(s, StepStartSweep(w, [id])), w, Sweeping([id]))
  {}

  lemma EndsSweep(s: System, w: nat)
    requires At(s, w) == Sweeping([])
    ensures MovedTo(s, Do(s, StepSweepNext(w)), w, Idle)
  {}

  lemma Sweeps(s: System, w: nat, id: string)
    requires At(s, w) == Sweeping([id]) && id in s.local.ops && Undecided(s.local.ops[id])
    ensures var s' := Do(s, StepSweepNext(w));
      && At(s', w) == Sweeping([]) && s'.world == s.world && s'.local == s.local.(ops := s.local.ops[id := s'.local.ops[id]])
      && s'.local.ops[id].status == OpNeedsReconciliation && s'.local.ops[id].error == "RECONCILIATION_EXHAUSTED"
  {
    assert [id][1..] == [];
  }
}
