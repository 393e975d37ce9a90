/**
 When a refund is left to a human: in every run only after the dispatcher has used up its eight
 attempts or the reconciler twelve queries, and then the operation says so until the provider answers.
 */
module RefundExhaustion {
  import opened Wrappers
  import opened LeaseQueues
  import opened RefundTables
  import opened SandboxStores
  import opened RefundInvariant
  import opened RefundProtocol
  import opened RefundSafety
  import opened RefundSteps
  import opened RefundTheorems

  /** Message m of the operation has been claimed eight times. */
  predicate Dispatched(l: Tables, id: string, m: string)
  {
    m in l.outbox && l.outbox[m].aggregate == id && l.outbox[m].attempt >= 8
  }

  /** Everything automatic has been tried: eight claims of the message, or twelve of the query. */
  ghost predicate Tried(l: Tables, id: string)
  {
    (id in l.jobs && l.jobs[id].attempt >= 12) || exists m :: Dispatched(l, id, m)
  }

  predicate LeftToHuman(l: Tables, id: string)
  {
    id in l.ops && l.ops[id].status == OpNeedsReconciliation
  }

  /** A query job allows twelve attempts or more and is dead only when they are used up. */
  predicate JobSpent(row: Row<string>)
  {
    row.maxAttempts >= 12 && (row.status == Dead ==> row.maxAttempts <= row.attempt)
  }

  predicate JobsSpent(jobs: Table<string>)
  {
    forall j :: j in jobs ==> JobSpent(jobs[j])
  }

  /** What a worker is about to give to a human. */
  ghost predicate DeskOk(l: Tables, state: Worker)
  {
    match state
    case Escalating(id, _) => Tried(l, id)
    case Sweeping(ids) => forall i :: 0 <= i < |ids| ==> Tried(l, ids[i])
    case _ => true
  }

  ghost predicate ExhaustionInv(s: System)
  {
    && JobsSpent(s.local.jobs)
    && (forall id {:trigger LeftToHuman(s.local, id)} :: LeftToHuman(s.local, id) ==> Tried(s.local, id))
    && (forall w {:trigger At(s, w)} :: DeskOk(s.local, At(s, w)))
  }

  /** Attempts are never taken back. */
  lemma TriedStays(s: System, s': System, id: string)
    requires SysInv(s) && SysInv(s') && Grows(s.local, s'.local) && Tried(s.local, id)
    ensures Tried(s'.local, id)
  {
    QueuesOk(s.local, s.world);
    QueuesOk(s'.local, s'.world);
    if id in s.local.jobs && s.local.jobs[id].attempt >= 12 {
      assert Evolves(s.local.jobs[id], s'.local.jobs[id]);
    } else {
      var m :| Dispatched(s.local, id, m);
      assert Evolves(s.local.outbox[m], s'.local.outbox[m]);
      assert Dispatched(s'.local, id, m);
    }
  }

  lemma DeskStays(s: System, s': System, state: Worker)
    requires SysInv(s) && SysInv(s') && Grows(s.local, s'.local) && DeskOk(s.local, state)
    ensures DeskOk(s'.local, state)
  {
    match state
    case Escalating(id, _) => TriedStays(s, s', id);
    case Sweeping(ids) => forall i | 0 <= i < |ids| ensures Tried(s'.local, ids[i]) { TriedStays(s, s', ids[i]); }
    case _ =>
  }

  /** A step of one worker: the jobs stay sound, and what it leaves or is about to leave to a human has been tried. */
  ghost predicate Fair(s: System, s': System, w: nat)
  {
    && JobsSpent(s'.local.jobs)
    && (forall id {:trigger LeftToHuman(s'.local, id)} :: LeftToHuman(s'.local, id) ==> LeftToHuman(s.local, id) || Tried(s.local, id))
    && (forall v {:trigger At(s', v)} :: v != w ==> At(s', v) == At(s, v))
    && DeskOk(s.local, At(s', w))
  }

  lemma FairKeeps(s: System, s': System, w: nat)
    requires SysInv(s) && SysInv(s') && Grows(s.local, s'.local)
    requires ExhaustionInv(s) && Fair(s, s', w)
    ensures ExhaustionInv(s')
  {
    forall id | LeftToHuman(s'.local, id) ensures Tried(s'.local, id) { TriedStays(s, s', id); }
    forall v ensures DeskOk(s'.local, At(s', v)) { DeskStays(s, s', At(s', v)); }
  }

  // ----- transactions -----

  lemma ReceiptFair(l: Tables, r: Receipt, eventId: string, digest: Digest)
    requires JobsSpent(l.jobs)
    ensures var l' := ApplyReceiptTx(l, r, eventId, digest).0;
      JobsSpent(l'.jobs) && forall id :: LeftToHuman(l', id) ==> LeftToHuman(l, id)
  {}

  lemma EnqueueFair(l: Tables, t: Template, actor: string, message: string, now: real)
    requires JobsSpent(l.jobs)
    ensures var l' := EnqueueTx(l, t, actor, PROVIDER, message, now).0;
      JobsSpent(l'.jobs) && forall id :: LeftToHuman(l', id) ==> LeftToHuman(l, id)
  {}

  lemma RequeueFair(l: Tables, id: string, actor: string, now: real)
    requires JobsSpent(l.jobs)
    ensures var l' := RequeueTx(l, id, actor, PROVIDER, now).0; JobsSpent(l'.jobs) && l'.ops == l.ops
  {}

  // ----- steps -----

  lemma ApplicationFair(s: System, step: Step)
    requires ExhaustionInv(s)
    requires step.StepEnqueue? || step.StepRequeue? || step.StepReviewCase? || step.StepCallback?
    ensures Fair(s, Do(s, step), 0)
  {
    assert DeskOk(s.local, At(s, 0));
    match step
    case StepEnqueue(t, actor, message, now) => EnqueueFair(s.local, t, actor, message, now);
    case StepRequeue(id, actor, now) => RequeueFair(s.local, id, actor, now);
    case StepReviewCase(_, _) =>
    case StepCallback(eventId) =>
      if eventId in s.world.store.events {
        var r := s.world.store.events[eventId].receipt;
        ReceiptFair(s.local, r, eventId, OfEvent(eventId, r));
      }
  }

  /** Operations and jobs stay, and this worker gives nothing to a human that it was not about to give. */
  predicate Plain(s: System, s': System, w: nat)
  {
    && s'.local.ops == s.local.ops && s'.local.jobs == s.local.jobs
    && (s'.workers == s.workers || s'.workers == s.workers[w := At(s', w)])
    && (At(s', w) == At(s, w) || (!At(s', w).Escalating? && !At(s', w).Sweeping?))
  }

  lemma PlainIsFair(s: System, s': System, w: nat)
    requires ExhaustionInv(s) && Plain(s, s', w)
    ensures Fair(s, s', w)
  {
    assert DeskOk(s.local, At(s, w));
    forall id | LeftToHuman(s'.local, id) ensures LeftToHuman(s.local, id) {}
  }

  lemma ProviderPlain(s: System, step: Step, w: nat)
    requires step.StepDeliver? || step.StepSetFault? || step == StepCrash(w)
    ensures Plain(s, Do(s, step), w)
  {}

  lemma SettlePlain(s: System, w: nat, rows: seq<(string, Refund)>, now: real, eventId: string)
    ensures Plain(s, Do(s, StepPollRefunds(w, rows, now)), w)
    ensures Plain(s, Do(s, StepSettleNext(w, eventId)), w)
  {}

  lemma ClaimPlain(s: System, w: nat, rows: seq<(string, Row<Command>)>, owner: string, now: real, lease: real)
    ensures Plain(s, Do(s, StepPollOutbox(w, rows, now)), w)
    ensures Plain(s, Do(s, StepTryOutbox(w, owner, now, lease)), w)
  {}

  lemma SendPlain(s: System, w: nat, now: real)
    ensures Plain(s, Do(s, StepCheck(w, now)), w)
    ensures Plain(s, Do(s, StepSend(w)), w)
  {}

  lemma ReplyPlain(s: System, w: nat, r: Receipt)
    ensures Plain(s, Do(s, StepReceiveReply(w, r)), w)
  {}

  lemma FailPlain(s: System, w: nat, code: string)
    ensures Plain(s, Do(s, StepCallFails(w, code)), w)
  {}

  lemma ClosePlain(s: System, w: nat, checked: real, now: real)
    ensures Plain(s, Do(s, StepCloseDelivered(w, checked, now)), w)
  {}

  lemma PollPlain(s: System, w: nat, rows: seq<(string, Row<string>)>, now: real)
    ensures Plain(s, Do(s, StepPollJobs(w, rows, now)), w)
    ensures Plain(s, Do(s, StepQuery(w)), w)
  {}

  lemma CheckPlain(s: System, w: nat, now: real, code: string)
    ensures Plain(s, Do(s, StepQueryFails(w, code)), w)
    ensures Plain(s, Do(s, StepCheckJob(w, now)), w)
  {}

  lemma MarkFair(s: System, w: nat, now: real)
    requires ExhaustionInv(s)
    ensures Fair(s, Do(s, StepMark(w, now)), w)
  {
    assert DeskOk(s.local, At(s, w));
  }

  lemma ApplyReplyFair(s: System, w: nat, eventId: string, lost: bool)
    requires ExhaustionInv(s)
    ensures Fair(s, Do(s, StepApplyReply(w, eventId, lost)), w)
  {
    assert DeskOk(s.local, At(s, w));
    if At(s, w).Applying? { ReceiptFair(s.local, At(s, w).receipt, eventId, OfReceipt(At(s, w).receipt)); }
  }

  lemma ApplyAnswerFair(s: System, w: nat, eventId: string, lost: bool)
    requires ExhaustionInv(s)
    ensures Fair(s, Do(s, StepApplyAnswer(w, eventId, lost)), w)
  {
    assert DeskOk(s.local, At(s, w));
    if At(s, w).ApplyingJob? { ReceiptFair(s.local, At(s, w).receipt, eventId, OfReceipt(At(s, w).receipt)); }
  }

  lemma DoubtFair(s: System, w: nat, now: real)
    requires ExhaustionInv(s)
    ensures Fair(s, Do(s, StepDoubt(w, now)), w)
  {
    assert DeskOk(s.local, At(s, w));
  }

  /** Only a message that is out of attempts is escalated. */
  lemma CloseFailedFair(s: System, w: nat, checked: real, now: real)
    requires SysInv(s) && ExhaustionInv(s)
    ensures Fair(s, Do(s, StepCloseFailed(w, checked, now)), w)
  {
    if At(s, w).ClosingFailed? {
      assert WorkerOk(s, w);
      var c := At(s, w).claim;
      assert OutboxRowOk(s.local, s.world, s.local.outbox[c.id]);
      if At(CloseFailed(s, w, checked, now), w).Escalating? {
        assert Dispatched(s.local, c.row.aggregate, c.id);
      }
    }
  }

  lemma EscalateFair(s: System, w: nat)
    requires ExhaustionInv(s)
    ensures Fair(s, Do(s, StepEscalate(w)), w)
  {
    assert DeskOk(s.local, At(s, w));
  }

  lemma TryJobFair(s: System, w: nat, owner: string, now: real, lease: real)
    requires SysInv(s) && ExhaustionInv(s)
    ensures Fair(s, Do(s, StepTryJob(w, owner, now, lease)), w)
  {
    if At(s, w).PollingJobs? && At(s, w).jobRows != [] {
      assert WorkerOk(s, w);
      var (id, stale) := At(s, w).jobRows[0];
      assert Remembers(s.local.jobs, id, stale);
      TryClaimSpends(s.local.jobs, id, stale, owner, now, lease);
    }
  }

  lemma TryClaimSpends(jobs: Table<string>, id: string, stale: Row<string>, owner: string, now: real, lease: real)
    requires JobsSpent(jobs) && (id in jobs ==> Evolves(stale, jobs[id]))
    ensures JobsSpent(TryClaim(jobs, id, stale, owner, now, lease).0)
  {}

  /** A dead job has been asked twelve times. */
  lemma StartSweepFair(s: System, w: nat, ids: seq<string>)
    requires ExhaustionInv(s)
    ensures Fair(s, Do(s, StepStartSweep(w, ids)), w)
  {
    assert DeskOk(s.local, At(s, w));
    forall id | Swept(s.local, id) ensures Tried(s.local, id) { assert JobSpent(s.local.jobs[id]); }
  }

  lemma SweepNextFair(s: System, w: nat)
    requires ExhaustionInv(s)
    ensures Fair(s, Do(s, StepSweepNext(w)), w)
  {
    assert DeskOk(s.local, At(s, w));
  }

  /** Only a job that is out of attempts is escalated. */
  lemma CloseJobFair(s: System, w: nat, checked: real, now: real)
    requires SysInv(s) && ExhaustionInv(s)
    ensures Fair(s, Do(s, StepCloseJob(w, checked, now)), w)
  {
    if At(s, w).ClosingJob? {
      assert WorkerOk(s, w);
      var j := At(s, w).job;
      assert JobRowOk(s.local, j.id, s.local.jobs[j.id]) && JobSpent(s.local.jobs[j.id]);
    }
  }

  function Actor(step: Step): nat
  {
    if step.StepEnqueue? || step.StepRequeue? || step.StepReviewCase? || step.StepCallback? || step.StepDeliver? || step.StepSetFault?
    then 0 else step.w
  }

  predicate IsOutside(step: Step)
  {
    step.StepDeliver? || step.StepSetFault? || step.StepCrash? || step.StepPollRefunds? || step.StepSettleNext?
  }

  predicate IsPlain(step: Step)
  {
    || IsOutside(step)
    || step.StepPollOutbox? || step.StepTryOutbox? || step.StepCheck? || step.StepSend? || step.StepReceiveReply? || step.StepCallFails?
    || step.StepCloseDelivered? || step.StepPollJobs? || step.StepQuery? || step.StepQueryFails? || step.StepCheckJob?
  }

  lemma OutsideStep(s: System, step: Step)
    requires IsOutside(step)
    ensures Plain(s, Do(s, step), Actor(step))
  {
    match step
    case StepPollRefunds(w, rows, now) => SettlePlain(s, w, rows, now, "");
    case StepSettleNext(w, eventId) => SettlePlain(s, w, [], 0.0, eventId);
    case _ => ProviderPlain(s, step, Actor(step));
  }

  lemma PlainStep(s: System, step: Step)
    requires IsPlain(step)
    ensures Plain(s, Do(s, step), Actor(step))
  {
    if IsOutside(step) {
      OutsideStep(s, step);
    } else {
      match step
      case StepPollOutbox(w, rows, now) => ClaimPlain(s, w, rows, "", now, 0.0);
      case StepTryOutbox(w, owner, now, lease) => ClaimPlain(s, w, [], owner, now, lease);
      case StepCheck(w, now) => SendPlain(s, w, now);
      case StepSend(w) => SendPlain(s, w, 0.0);
      case StepReceiveReply(w, r) => ReplyPlain(s, w, r);
      case StepCallFails(w, code) => FailPlain(s, w, code);
      case StepCloseDelivered(w, checked, now) => ClosePlain(s, w, checked, now);
      case StepPollJobs(w, rows, now) => PollPlain(s, w, rows, now);
      case StepQuery(w) => PollPlain(s, w, [], 0.0);
      case StepQueryFails(w, code) => CheckPlain(s, w, 0.0, code);
      case StepCheckJob(w, now) => CheckPlain(s, w, now, "");
    }
  }

  lemma StepFair(s: System, step: Step)
    requires SysInv(s) && ExhaustionInv(s)
    ensures Fair(s, Do(s, step), Actor(step))
  {
    if IsPlain(step) {
      PlainStep(s, step);
      PlainIsFair(s, Do(s, step), Actor(step));
    } else if step.StepEnqueue? || step.StepRequeue? || step.StepReviewCase? || step.StepCallback? {
      ApplicationFair(s, step);
    } else {
      match step
      case StepMark(w, now) => MarkFair(s, w, now);
      case StepApplyReply(w, eventId, lost) => ApplyReplyFair(s, w, eventId, lost);
      case StepDoubt(w, now) => DoubtFair(s, w, now);
      case StepCloseFailed(w, checked, now) => CloseFailedFair(s, w, checked, now);
      case StepEscalate(w) => EscalateFair(s, w);
      case StepTryJob(w, owner, now, lease) => TryJobFair(s, w, owner, now, lease);
      case StepStartSweep(w, ids) => StartSweepFair(s, w, ids);
      case StepSweepNext(w) => SweepNextFair(s, w);
      case StepApplyAnswer(w, eventId, lost) => ApplyAnswerFair(s, w, eventId, lost);
      case StepCloseJob(w, checked, now) => CloseJobFair(s, w, checked, now);
    }
  }

  lemma {:induction false} RunExhaustion(s: System, steps: seq<Step>)
    requires SysInv(s) && ExhaustionInv(s)
    ensures ExhaustionInv(Run(s, steps))
    decreases |steps|
  {
    if steps != [] {
      StepFair(s, steps[0]);
      StepKeeps(s, steps[0]);
      FairKeeps(s, Do(s, steps[0]), Actor(steps[0]));
      RunExhaustion(Do(s, steps[0]), steps[1..]);
    }
  }

  /**
   In every run, whatever is lost, repeated or reordered: an operation that waits for a human has had its
   message claimed eight times or its provider asked twelve times.
   */
  lemma OnlyTheTriedAreLeft(s0: System, steps: seq<Step>, id: string)
    requires Initial(s0) && LeftToHuman(Run(s0, steps).local, id)
    ensures Tried(Run(s0, steps).local, id)
  {
    InitialInv(s0);
    RunExhaustion(s0, steps);
  }
}
