/** What every run of the refund protocol guarantees. */
module RefundTheorems {
  import opened Wrappers
  import opened LeaseQueues
  import opened RefundTables
  import opened SandboxStores
  import opened RefundInvariant
  import opened RefundProtocol
  import opened RefundSafety
  import opened RefundSteps
  import RefundConvergence

  lemma InitialInv(s: System)
    requires Initial(s)
    ensures SysInv(s)
  {
    forall w ensures WorkerOk(s, w) {}
  }

  lemma {:induction false} RunInv(s: System, steps: seq<Step>)
    requires SysInv(s)
    ensures SysInv(Run(s, steps))
    decreases |steps|
  {
    if steps == [] {
    } else {
      StepKeeps(s, steps[0]);
      RunInv(Do(s, steps[0]), steps[1..]);
    }
  }

  lemma ReachableInv(s0: System, steps: seq<Step>)
    requires Initial(s0)
    ensures SysInv(Run(s0, steps))
  {
    InitialInv(s0);
    RunInv(s0, steps);
  }

  /** The provider never holds two refunds for one order, nor two for one operation. */
  lemma NeverRefundedTwice(s0: System, steps: seq<Step>, a: string, b: string)
    requires Initial(s0)
    requires a in Run(s0, steps).world.store.refunds && b in Run(s0, steps).world.store.refunds
    requires var refunds := Run(s0, steps).world.store.refunds;
      refunds[a].command.orderId == refunds[b].command.orderId || refunds[a].command.operationId == refunds[b].command.operationId
    ensures a == b
  {
    ReachableInv(s0, steps);
  }

  /**
   A local verdict is the provider's verdict: succeeded and failed are only ever recorded when the
   provider's own row says so, for the same identity, refund and receipt.
   */
  lemma VerdictIsTheProviders(s0: System, steps: seq<Step>, id: string)
    requires Initial(s0)
    requires id in Run(s0, steps).local.ops
    requires Final(Run(s0, steps).local.ops[id].status)
    ensures var s := Run(s0, steps); var o := s.local.ops[id];
      && o.request.key in s.world.store.refunds
      && var row := s.world.store.refunds[o.request.key];
      && row.command == o.request
      && row.status == (if o.status == OpSucceeded then Succeeded else Failed)
      && row.receipt.refundId == o.providerReference
      && row.version == o.providerVersion
      && o.result == Some(row.receipt)
  {
    ReachableInv(s0, steps);
    var s := Run(s0, steps);
    assert OpOk(s.local, s.world, id);
    assert IssuedOk(s.world, s.local.ops[id].result.value);
  }

  /**
   Money: whatever receipt an operation has taken, in whatever state, is for the amount of its case,
   and it is the result the case shows.
   */
  lemma AmountsMatch(s0: System, steps: seq<Step>, id: string)
    requires Initial(s0)
    requires id in Run(s0, steps).local.ops && Run(s0, steps).local.ops[id].result.Some?
    ensures var l := Run(s0, steps).local; var o := l.ops[id];
      && o.caseId in l.cases
      && l.cases[o.caseId].amountCents == o.result.value.amountCents
      && l.cases[o.caseId].result == o.result
  {
    ReachableInv(s0, steps);
    assert OpOk(Run(s0, steps).local, Run(s0, steps).world, id);
  }

  /** A refund the provider was set to reject has failed and stays so; no other one ever fails. */
  lemma FailedIffRejected(s0: System, steps: seq<Step>, key: string)
    requires Initial(s0)
    requires key in Run(s0, steps).world.store.refunds
    ensures var row := Run(s0, steps).world.store.refunds[key];
      && (row.status == Failed <==> row.fault.mode == Reject)
      && (row.status == InProgress ==> row.fault.mode == DelayedSuccess)
  {
    ReachableInv(s0, steps);
    assert RefundOk(key, Run(s0, steps).world.store.refunds[key]);
  }

  lemma AnsweredHasRefund(s: System, id: string)
    requires SysInv(s) && id in s.local.ops
    ensures s.local.ops[id].providerVersion > 0 ==> s.local.ops[id].request.key in s.world.store.refunds
  {
    assert OpOk(s.local, s.world, id);
    if s.local.ops[id].providerVersion > 0 {
      assert IssuedOk(s.world, s.local.ops[id].result.value);
    }
  }

  /**
   Timeouts, lost replies and crashes alone never decide a refund: as long as the provider has
   nothing for it, the operation is pending, running, unknown or waits for a human.
   */
  lemma SilenceDecidesNothing(s0: System, steps: seq<Step>, id: string)
    requires Initial(s0)
    requires id in Run(s0, steps).local.ops
    requires Run(s0, steps).local.ops[id].request.key !in Run(s0, steps).world.store.refunds
    ensures var o := Run(s0, steps).local.ops[id];
      o.status in {OpPending, OpRunning, OpUnknown, OpNeedsReconciliation} && o.result.None?
  {
    ReachableInv(s0, steps);
    AnsweredHasRefund(Run(s0, steps), id);
    assert OpOk(Run(s0, steps).local, Run(s0, steps).world, id);
  }

  /** The five tables agree in every reachable state. */
  lemma TablesAgree(s0: System, steps: seq<Step>, id: string, m: string)
    requires Initial(s0)
    requires id in Run(s0, steps).local.ops
    requires m in Run(s0, steps).local.outbox && Run(s0, steps).local.outbox[m].aggregate == id
    ensures var s := Run(s0, steps); var o := s.local.ops[id]; var row := s.local.outbox[m];
      && o.caseId in s.local.cases && id in s.local.jobs
      && s.local.cases[o.caseId].status == CaseStatusOf(o.status)
      && (s.local.jobs[id].status == Sent <==> Final(o.status))
      && (Final(o.status) ==> row.status == Sent)
      && (row.status == Sent && o.status != OpNeedsReconciliation ==> o.request.key in s.world.store.refunds)
      && o.attemptCount <= row.attempt <= 8
  {
    ReachableInv(s0, steps);
    var s := Run(s0, steps);
    assert OpOk(s.local, s.world, id);
    assert OutboxRowOk(s.local, s.world, s.local.outbox[m]);
    assert JobRowOk(s.local, id, s.local.jobs[id]);
  }

  /** Every operation has exactly one submit message, and a case belongs to at most one operation. */
  lemma OneMessageOneCase(s0: System, steps: seq<Step>, id: string)
    requires Initial(s0)
    requires id in Run(s0, steps).local.ops
    ensures var s := Run(s0, steps);
      && (exists m :: m in s.local.outbox && s.local.outbox[m].aggregate == id
            && forall n :: n in s.local.outbox && s.local.outbox[n].aggregate == id ==> n == m)
      && (forall other :: other in s.local.ops && s.local.ops[other].caseId == s.local.ops[id].caseId ==> other == id)
  {
    ReachableInv(s0, steps);
    var s := Run(s0, steps);
    assert HasMessage(s.local.outbox, id);
    var m :| m in s.local.outbox && s.local.outbox[m].aggregate == id;
    forall n | n in s.local.outbox && s.local.outbox[n].aggregate == id ensures n == m {
      assert SameAggregate(s.local.outbox, n, m);
    }
    forall other | other in s.local.ops && s.local.ops[other].caseId == s.local.ops[id].caseId ensures other == id {
      assert SameCase(s.local.ops, other, id);
    }
  }

  /** Every receipt the provider has ever handed out under one key. */
  ghost function IssuedFor(s: System, key: string): set<Receipt>
  {
    set r | r in s.world.issued && r.command.key == key
  }

  /**
   The provider meets the condition under which the order of receipts cannot matter: in every run
   its receipts for one refund have one body per version, and a success is its last word.
   */
  lemma ProviderIsOrdered(s0: System, steps: seq<Step>, key: string)
    requires Initial(s0)
    ensures RefundConvergence.OnePerVersion(IssuedFor(Run(s0, steps), key))
    ensures RefundConvergence.SuccessIsLatest(IssuedFor(Run(s0, steps), key))
  {
    ReachableInv(s0, steps);
    var s := Run(s0, steps);
    forall r | r in IssuedFor(s, key) ensures IssuedOk(s.world, r) && RefundOk(key, s.world.store.refunds[key]) {
      assert IssuedOk(s.world, r);
    }
  }

  // ----- submissions -----

  ghost function SubmissionsOf(s: System, m: string): set<Request>
  {
    set q | q in s.requests && q.message == m
  }

  ghost function Requests(m: string, command: Command, n: nat): (r: set<Request>)
    ensures |r| == n
    ensures forall q :: q in r <==> q.message == m && q.command == command && 1 <= q.fence <= n
  {
    if n == 0 then {} else Requests(m, command, n - 1) + {Request(m, n, command)}
  }

  lemma SubsetSize<T>(a: set<T>, b: set<T>)
    requires a <= b
    ensures |a| <= |b|
  {
    assert b == a + (b - a);
  }

  /** The step puts a refund of this message on the wire. */
  predicate PutsOnWire(s: System, step: Step, m: string)
  {
    step.StepSend? && At(s, step.w).Sending? && At(s, step.w).claim.id == m
  }

  ghost function SendsIn(s: System, steps: seq<Step>, m: string): nat
    decreases |steps|
  {
    if steps == [] then 0 else (if PutsOnWire(s, steps[0], m) then 1 else 0) + SendsIn(Do(s, steps[0]), steps[1..], m)
  }

  /** A worker about to send has a fence under which nothing was ever sent. */
  lemma SendIsNew(s: System, w: nat)
    requires SysInv(s) && At(s, w).Sending?
    ensures var c := At(s, w).claim; Request(c.id, c.row.fence, c.row.payload) !in s.requests
  {
    assert WorkerOk(s, w);
  }

  /** So every send adds a request of its own, and nothing else adds any. */
  lemma SendAddsOne(s: System, step: Step, m: string)
    requires SysInv(s)
    ensures |SubmissionsOf(Do(s, step), m)| == |SubmissionsOf(s, m)| + if PutsOnWire(s, step, m) then 1 else 0
  {
    if step.StepSend? && At(s, step.w).Sending? {
      SendIsNew(s, step.w);
      var c := At(s, step.w).claim;
      var q := Request(c.id, c.row.fence, c.row.payload);
      assert SubmissionsOf(Do(s, step), m) == SubmissionsOf(s, m) + if c.id == m then {q} else {};
    } else {
      SendsOnly(s, step);
      assert SubmissionsOf(Do(s, step), m) == SubmissionsOf(s, m);
    }
  }

  lemma SendsOnly(s: System, step: Step)
    requires step.StepSend? ==> !At(s, step.w).Sending?
    ensures Do(s, step).requests == s.requests
  {}

  lemma {:induction false} SendsAreCounted(s: System, steps: seq<Step>, m: string)
    requires SysInv(s)
    ensures |SubmissionsOf(Run(s, steps), m)| == |SubmissionsOf(s, m)| + SendsIn(s, steps, m)
    decreases |steps|
  {
    if steps != [] {
      SendAddsOne(s, steps[0], m);
      StepKeeps(s, steps[0]);
      SendsAreCounted(Do(s, steps[0]), steps[1..], m);
    }
  }

  /** The requests of one message name fences up to eight and carry one command. */
  lemma SubmissionsBounded(s: System, m: string)
    requires SysInv(s)
    ensures |SubmissionsOf(s, m)| <= 8
    ensures forall p, q :: p in SubmissionsOf(s, m) && q in SubmissionsOf(s, m) ==> p.command == q.command
  {
    forall q | q in SubmissionsOf(s, m) ensures RequestOk(s, q) {}
    if m in s.local.outbox {
      var row := s.local.outbox[m];
      assert OutboxRowOk(s.local, s.world, row);
      SubsetSize(SubmissionsOf(s, m), Requests(m, row.payload, row.fence));
    } else {
      forall q | q in s.requests ensures q.message in s.local.outbox { assert RequestOk(s, q); }
      assert SubmissionsOf(s, m) == {};
    }
  }

  /**
   However often workers crash, lose their lease or time out, the steps of a run that put one refund
   on the wire are at most eight, each under a fence of its own and always with the same command.
   */
  lemma AtMostEightSubmissions(s0: System, steps: seq<Step>, m: string)
    requires Initial(s0)
    ensures SendsIn(s0, steps, m) <= 8
    ensures SendsIn(s0, steps, m) == |SubmissionsOf(Run(s0, steps), m)|
    ensures forall p, q :: p in SubmissionsOf(Run(s0, steps), m) && q in SubmissionsOf(Run(s0, steps), m) ==> p.command == q.command
  {
    InitialInv(s0);
    RunInv(s0, steps);
    SendsAreCounted(s0, steps, m);
    assert SubmissionsOf(s0, m) == {};
    SubmissionsBounded(Run(s0, steps), m);
  }

  /** Only the dispatcher's own send puts a refund on the wire: queries, callbacks and operators never do. */
  lemma OnlySendSubmits(s: System, step: Step)
    ensures !step.StepSend? ==> Do(s, step).requests == s.requests
    ensures !step.StepDeliver? && !step.StepSettleNext? ==> Do(s, step).world.store.refunds == s.world.store.refunds
  {}

  // ----- verdicts are final -----

  lemma {:induction false} RunGrows(s: System, steps: seq<Step>)
    requires SysInv(s)
    ensures SysInv(Run(s, steps)) && Grows(s.local, Run(s, steps).local)
    decreases |steps|
  {
    if steps == [] {
      GrowsSame(s.local);
    } else {
      StepKeeps(s, steps[0]);
      RunGrows(Do(s, steps[0]), steps[1..]);
      GrowsTransitive(s.local, Do(s, steps[0]).local, Run(s, steps).local);
    }
  }

  /**
   Once an operation has succeeded or failed, nothing in the rest of any run changes its row, its
   outbox message stays sent and its query job stays closed.
   */
  lemma VerdictIsFinal(s0: System, before: seq<Step>, after: seq<Step>, id: string, m: string)
    requires Initial(s0)
    requires var s := Run(s0, before);
      && id in s.local.ops && Final(s.local.ops[id].status)
      && m in s.local.outbox && s.local.outbox[m].aggregate == id
    ensures var s := Run(s0, before); var end := Run(s, after);
      && id in end.local.ops && end.local.ops[id] == s.local.ops[id]
      && m in end.local.outbox && end.local.outbox[m].status == Sent
      && id in end.local.jobs && end.local.jobs[id].status == Sent
  {
    ReachableInv(s0, before);
    var s := Run(s0, before);
    RunGrows(s, after);
    var end := Run(s, after);
    assert OpGrows(s.local.ops[id], end.local.ops[id]);
    assert Evolves(s.local.outbox[m], end.local.outbox[m]);
    assert OutboxRowOk(end.local, end.world, end.local.outbox[m]);
    assert JobRowOk(end.local, id, end.local.jobs[id]);
  }
}
