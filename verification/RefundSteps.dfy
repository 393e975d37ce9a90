/** Every step of the refund protocol keeps the invariant. */
module RefundSteps {
  import opened Wrappers
  import opened LeaseQueues
  import opened RefundTables
  import opened SandboxStores
  import opened RefundInvariant
  import opened RefundProtocol
  import opened RefundSafety

  // ----- dispatcher -----

  lemma KeepPollOutbox(s: System, w: nat, rows: seq<(string, Row<Command>)>, now: real)
    requires SysInv(s)
    ensures SysInv(PollOutbox(s, w, rows, now))
    ensures Grows(s.local, PollOutbox(s, w, rows, now).local)
  {
    if PollOutbox(s, w, rows, now) != s {
      LocalStep(s, PollOutbox(s, w, rows, now), w);
    }
  }

  lemma KeepTryOutbox(s: System, w: nat, owner: string, now: real, lease: real)
    requires SysInv(s)
    ensures SysInv(TryOutbox(s, w, owner, now, lease))
    ensures Grows(s.local, TryOutbox(s, w, owner, now, lease).local)
  {
    assert WorkerOk(s, w);
    var s' := TryOutbox(s, w, owner, now, lease);
    if At(s, w).Polling? && At(s, w).rows == [] {
      LocalStep(s, s', w);
    } else if At(s, w).Polling? {
      var (id, stale) := At(s, w).rows[0];
      assert Remembers(s.local.outbox, id, stale);
      if TryClaim(s.local.outbox, id, stale, owner, now, lease).1.None? {
        OutboxClaimTx(s, s', id, stale, owner, now, lease);
        Keep(s, s', w, Polling(At(s, w).rows[1..]));
        WorkerStep(s, s', w);
      } else {
        ClaimOutboxKeeps(s.local, s.world, id, stale, owner, now, lease);
        QueuesOk(s.local, s.world);
        TryClaimKeeps(s.local.outbox, id, stale, owner, now, lease);
        KeepGrant(s, s', w, id, TryClaim(s.local.outbox, id, stale, owner, now, lease).1.value);
      }
    }
  }

  lemma GrantNet(s: System, s': System, w: nat, id: string, c: Lease<Command>)
    requires NetOk(s) && id in s.local.outbox && id in s'.local.outbox && Grows(s.local, s'.local)
    requires s' == Goto(s.(local := s'.local), w, Marking(c)).(grants := s.grants[(id, c.row.fence) := w])
    requires c == Lease(id, s'.local.outbox[id]) && s'.local.outbox[id].fence == s.local.outbox[id].fence + 1
    ensures NetOk(s') && Unsent(s', c)
  {
    forall q | q in s'.requests ensures RequestOk(s', q) {
      assert RequestOk(s, q);
      assert Evolves(s.local.outbox[q.message], s'.local.outbox[q.message]);
    }
    forall q | q in s'.requests && q.message == id ensures q.fence != c.row.fence { assert RequestOk(s, q); }
    forall m, g: nat | (m, g) in s'.grants ensures m in s'.local.outbox && 1 <= g <= s'.local.outbox[m].fence {
      if (m, g) != (id, c.row.fence) {
        assert (m, g) in s.grants;
        assert Evolves(s.local.outbox[m], s'.local.outbox[m]);
      }
    }
  }

  /** A successful claim grants a fence that nobody has used or sent anything under. */
  lemma KeepGrant(s: System, s': System, w: nat, id: string, c: Lease<Command>)
    requires SysInv(s)
    requires id in s.local.outbox && id in s'.local.outbox
    requires LocalOk(s'.local, s'.world) && Grows(s.local, s'.local)
    requires s' == Goto(s.(local := s'.local), w, Marking(c)).(grants := s.grants[(id, c.row.fence) := w])
    requires s'.local == s.local.(outbox := s'.local.outbox)
    requires c == Lease(id, s'.local.outbox[id])
    requires s'.local.outbox[id].fence == s.local.outbox[id].fence + 1
    requires s'.local.outbox[id].attempt == s.local.outbox[id].attempt + 1
    ensures SysInv(s')
    ensures Grows(s.local, s'.local)
  {
    assert (id, c.row.fence) !in s.grants;
    WorldSame(s.world);
    assert Moves(s, s');
    GrantNet(s, s', w, id, c);
    assert OutboxRowOk(s.local, s.world, s.local.outbox[id]);
    GrowsComplete(s.local, s'.local);
    forall v ensures WorkerOk(s', v) {
      if v != w {
        assert WorkerOk(s, v);
        StateStable(s, s', v, At(s, v), w);
      }
    }
  }

  /** The claim a worker marks is ahead of the attempts counted so far. */
  lemma MarkIsCounted(s: System, w: nat, now: real)
    requires SysInv(s) && At(s, w).Marking?
    ensures var c := At(s, w).claim; var id := c.row.aggregate;
      && id in s.local.ops
      && LocalOk(MarkAttemptTx(s.local, id, Some((c, now))).0, s.world)
      && Grows(s.local, MarkAttemptTx(s.local, id, Some((c, now))).0)
  {
    assert WorkerOk(s, w);
    var c := At(s, w).claim;
    var id := c.row.aggregate;
    var guard := Some((c, now));
    assert OutboxRowOk(s.local, s.world, s.local.outbox[c.id]);
    forall m | m in s.local.outbox && s.local.outbox[m].aggregate == id && Guarded(s.local, guard)
      ensures s.local.ops[id].attemptCount < s.local.outbox[m].attempt
    {
      assert SameAggregate(s.local.outbox, m, c.id);
    }
    MarkAttemptKeeps(s.local, s.world, id, guard);
  }

  /** Where a marking worker goes, with and without having counted an attempt. */
  lemma MarkShape(s: System, w: nat, now: real)
    requires At(s, w).Marking? && At(s, w).claim.row.aggregate in s.local.ops
    ensures var s' := Mark(s, w, now); var c := At(s, w).claim; var id := c.row.aggregate;
      && s'.local == MarkAttemptTx(s.local, id, Some((c, now))).0 && s'.local.ops.Keys == s.local.ops.Keys
      && s' == Goto(s.(local := s'.local), w, At(s', w))
      && (s'.local != s.local ==> At(s', w) == CheckingBefore(c))
      && (s'.local == s.local ==>
            || At(s', w).Idle? || At(s', w) == CheckingBefore(c)
            || (At(s', w) == ClosingSettled(c) && Settled(s.local.ops[id].status)))
  {}

  lemma KeepMark(s: System, w: nat, now: real)
    requires SysInv(s)
    ensures SysInv(Mark(s, w, now))
    ensures Grows(s.local, Mark(s, w, now).local)
  {
    if At(s, w).Marking? {
      var s' := Mark(s, w, now);
      MarkIsCounted(s, w, now);
      MarkShape(s, w, now);
      if s'.local == s.local {
        KeepMarkQuiet(s, s', w, At(s, w).claim);
      } else {
        KeepMarked(s, s', w, At(s, w).claim, now);
      }
    }
  }

  lemma KeepMarked(s: System, s': System, w: nat, c: Lease<Command>, now: real)
    requires SysInv(s) && At(s, w) == Marking(c)
    requires s' == Mark(s, w, now) && s'.local != s.local
    requires s' == Goto(s.(local := s'.local), w, CheckingBefore(c))
    requires LocalOk(s'.local, s.world) && Grows(s.local, s'.local) && s'.local.ops.Keys == s.local.ops.Keys
    ensures SysInv(s')
    ensures Grows(s.local, s'.local)
  {
    assert WorkerOk(s, w);
    WorldSame(s.world);
    HoldsStable(s, s', w, c);
    NetStable(s, s');
    GrowsComplete(s.local, s'.local);
    forall v ensures WorkerOk(s', v) {
      if v != w {
        assert WorkerOk(s, v);
        if At(s, v).Marking? { OtherUncounted(s, s', w, v, now); }
        StateStable(s, s', v, At(s, v), w);
      }
    }
  }

  lemma KeepMarkQuiet(s: System, s': System, w: nat, c: Lease<Command>)
    requires SysInv(s) && At(s, w) == Marking(c) && c.row.aggregate in s.local.ops
    requires s' == Goto(s, w, At(s', w))
    requires At(s', w).Idle? || (At(s', w) == CheckingBefore(c)) || (At(s', w) == ClosingSettled(c) && Settled(s.local.ops[c.row.aggregate].status))
    ensures SysInv(s')
    ensures Grows(s.local, s'.local)
  {
    assert WorkerOk(s, w);
    var id := c.row.aggregate;
    assert OpOk(s.local, s.world, id);
    if Final(s.local.ops[id].status) {
      assert IssuedOk(s.world, s.local.ops[id].result.value);
    }
    LocalStep(s, s', w);
  }

  /** Counting this worker's attempt does not use up the attempt of another claim. */
  lemma OtherUncounted(s: System, s': System, w: nat, v: nat, now: real)
    requires SysInv(s) && v != w
    requires At(s, w).Marking? && At(s, v).Marking?
    requires s' == Mark(s, w, now) && s'.local != s.local
    ensures Uncounted(s', At(s, v).claim)
  {
    assert WorkerOk(s, w) && WorkerOk(s, v);
    var c, d := At(s, w).claim, At(s, v).claim;
    assert Owned(s.local.outbox, c, now);
    if d.row.aggregate == c.row.aggregate {
      assert SameAggregate(s.local.outbox, c.id, d.id);
    }
  }

  lemma KeepCloseDelivered(s: System, w: nat, checked: real, now: real)
    requires SysInv(s)
    ensures SysInv(CloseDelivered(s, w, checked, now))
    ensures Grows(s.local, CloseDelivered(s, w, checked, now).local)
  {
    assert WorkerOk(s, w);
    if At(s, w).ClosingSettled? || At(s, w).ClosingAccepted? {
      OutboxFinishTx(s, CloseDelivered(s, w, checked, now), At(s, w).claim, "", checked, now);
      WorkerStep(s, CloseDelivered(s, w, checked, now), w);
    }
  }

  lemma KeepCheck(s: System, w: nat, now: real)
    requires SysInv(s)
    ensures SysInv(Check(s, w, now))
    ensures Grows(s.local, Check(s, w, now).local)
  {
    assert WorkerOk(s, w);
    if Check(s, w, now) != s {
      LocalStep(s, Check(s, w, now), w);
    }
  }

  lemma KeepSend(s: System, w: nat)
    requires SysInv(s)
    ensures SysInv(Send(s, w))
    ensures Grows(s.local, Send(s, w).local)
  {
    assert WorkerOk(s, w);
    if At(s, w).Sending? {
      var s' := Send(s, w);
      var c := At(s, w).claim;
      WorldSame(s.world);
      GrowsSame(s.local);
      forall q | q in s'.requests ensures RequestOk(s', q) {
        if q in s.requests { assert RequestOk(s, q); }
        else { assert Evolves(c.row, s.local.outbox[c.id]); }
      }
      HoldsStable(s, s', w, c);
      forall v ensures WorkerOk(s', v) {
        if v != w {
          assert WorkerOk(s, v);
          StateStable(s, s', v, At(s, v), w);
        }
      }
    }
  }

  lemma KeepReceiveReply(s: System, w: nat, r: Receipt)
    requires SysInv(s)
    ensures SysInv(ReceiveReply(s, w, r))
    ensures Grows(s.local, ReceiveReply(s, w, r).local)
  {
    assert WorkerOk(s, w);
    if ReceiveReply(s, w, r) != s {
      LocalStep(s, ReceiveReply(s, w, r), w);
    }
  }

  lemma KeepCallFails(s: System, w: nat, code: string)
    requires SysInv(s)
    ensures SysInv(CallFails(s, w, code))
    ensures Grows(s.local, CallFails(s, w, code).local)
  {
    assert WorkerOk(s, w);
    if CallFails(s, w, code) != s {
      LocalStep(s, CallFails(s, w, code), w);
    }
  }

  /** What the dispatcher does next after applying the reply. */
  lemma AfterApply(s: System, w: nat, eventId: string)
    requires At(s, w).Applying?
    ensures var s' := ApplyReply(s, w, eventId, false); var (c, r) := (At(s, w).claim, At(s, w).receipt);
      var tx := ApplyReceiptTx(s.local, r, eventId, OfReceipt(r));
      && s' == Goto(s.(local := tx.0), w, At(s', w))
      && (if tx.1.Done? then At(s', w) == (if r.status == InProgress then ClosingAccepted(c) else Idle)
          else At(s', w).Doubting? && At(s', w).claim == c && At(s', w).code != "")
  {}

  /** Sixteen lost races leave the tables alone and the outcome in doubt. */
  lemma LostApply(s: System, w: nat, eventId: string)
    requires At(s, w).Applying?
    ensures ApplyReply(s, w, eventId, true) == Goto(s, w, Doubting(At(s, w).claim, "INBOX_BUSY"))
  {}

  lemma KeepApplyReply(s: System, w: nat, eventId: string, lost: bool)
    requires SysInv(s)
    ensures SysInv(ApplyReply(s, w, eventId, lost))
    ensures Grows(s.local, ApplyReply(s, w, eventId, lost).local)
  {
    if At(s, w).Applying? {
      if lost {
        LostApply(s, w, eventId);
        assert WorkerOk(s, w);
        LocalStep(s, ApplyReply(s, w, eventId, lost), w);
      } else {
        AfterApply(s, w, eventId);
        KeepApplied(s, ApplyReply(s, w, eventId, lost), w, At(s, w).claim, At(s, w).receipt, eventId);
      }
    }
  }

  lemma KeepApplied(s: System, s': System, w: nat, c: Lease<Command>, r: Receipt, eventId: string)
    requires SysInv(s) && At(s, w) == Applying(c, r)
    requires s'.local == ApplyReceiptTx(s.local, r, eventId, OfReceipt(r)).0
    requires s' == Goto(s.(local := s'.local), w, At(s', w))
    requires if ApplyReceiptTx(s.local, r, eventId, OfReceipt(r)).1.Done?
             then At(s', w) == (if r.status == InProgress then ClosingAccepted(c) else Idle)
             else At(s', w).Doubting? && At(s', w).claim == c && At(s', w).code != ""
    ensures SysInv(s')
    ensures Grows(s.local, s'.local)
  {
    assert WorkerOk(s, w);
    ReceiptTx(s, s', r, eventId, OfReceipt(r));
    Keep(s, s', w, Waiting(c));
    if At(s', w).ClosingAccepted? {
      AcceptedCovers(s, s', c, r, eventId);
    }
    WorkerStep(s, s', w);
  }

  lemma AcceptedCovers(s: System, s': System, c: Lease<Command>, r: Receipt, eventId: string)
    requires SysInv(s) && r in s.world.issued && s'.world == s.world
    requires LocalOk(s'.local, s'.world) && Remembers(s.local.outbox, c.id, c.row) && Grows(s.local, s'.local)
    requires r.command == c.row.payload && r.command.key in s.world.store.refunds
    ensures Covered(s'.local, s'.world, c.row.aggregate)
  {
    assert OutboxRowOk(s'.local, s'.world, s'.local.outbox[c.id]);
    assert Evolves(s.local.outbox[c.id], s'.local.outbox[c.id]);
  }

  lemma KeepDoubt(s: System, w: nat, now: real)
    requires SysInv(s)
    ensures SysInv(Doubt(s, w, now))
    ensures Grows(s.local, Doubt(s, w, now).local)
  {
    assert WorkerOk(s, w);
    if At(s, w).Doubting? {
      var s' := Doubt(s, w, now);
      var (c, code) := (At(s, w).claim, At(s, w).code);
      assert OutboxRowOk(s.local, s.world, s.local.outbox[c.id]);
      UnknownTx(s, s', c.row.aggregate, code, false, Some((c, now)));
      Keep(s, s', w, Waiting(c));
      WorkerStep(s, s', w);
    }
  }

  lemma KeepCloseFailed(s: System, w: nat, checked: real, now: real)
    requires SysInv(s)
    ensures SysInv(CloseFailed(s, w, checked, now))
    ensures Grows(s.local, CloseFailed(s, w, checked, now).local)
  {
    assert WorkerOk(s, w);
    if At(s, w).ClosingFailed? {
      var s' := CloseFailed(s, w, checked, now);
      OutboxFinishTx(s, s', At(s, w).claim, At(s, w).code, checked, now);
      WorkerStep(s, s', w);
    }
  }

  lemma KeepEscalate(s: System, w: nat)
    requires SysInv(s)
    ensures SysInv(Escalate(s, w))
    ensures Grows(s.local, Escalate(s, w).local)
  {
    assert WorkerOk(s, w);
    if At(s, w).Escalating? {
      UnknownTx(s, Escalate(s, w), At(s, w).id, At(s, w).code, true, None);
      WorkerStep(s, Escalate(s, w), w);
    }
  }

  // ----- reconciler -----

  lemma KeepPollJobs(s: System, w: nat, rows: seq<(string, Row<string>)>, now: real)
    requires SysInv(s)
    ensures SysInv(PollJobs(s, w, rows, now))
    ensures Grows(s.local, PollJobs(s, w, rows, now).local)
  {
    if PollJobs(s, w, rows, now) != s {
      LocalStep(s, PollJobs(s, w, rows, now), w);
    }
  }

  lemma KeepTryJob(s: System, w: nat, owner: string, now: real, lease: real)
    requires SysInv(s)
    ensures SysInv(TryJob(s, w, owner, now, lease))
    ensures Grows(s.local, TryJob(s, w, owner, now, lease).local)
  {
    assert WorkerOk(s, w);
    if At(s, w).PollingJobs? && At(s, w).jobRows != [] {
      var s' := TryJob(s, w, owner, now, lease);
      var (id, stale) := At(s, w).jobRows[0];
      assert Remembers(s.local.jobs, id, stale);
      JobClaimTx(s, s', id, stale, owner, now, lease);
      Keep(s, s', w, PollingJobs(At(s, w).jobRows[1..]));
      WorkerStep(s, s', w);
    }
  }

  lemma KeepStartSweep(s: System, w: nat, ids: seq<string>)
    requires SysInv(s)
    ensures SysInv(StartSweep(s, w, ids))
    ensures Grows(s.local, StartSweep(s, w, ids).local)
  {
    if StartSweep(s, w, ids) != s {
      LocalStep(s, StartSweep(s, w, ids), w);
    }
  }

  lemma KeepSweepNext(s: System, w: nat)
    requires SysInv(s)
    ensures SysInv(SweepNext(s, w))
    ensures Grows(s.local, SweepNext(s, w).local)
  {
    assert WorkerOk(s, w);
    if At(s, w).Sweeping? && At(s, w).ids != [] {
      UnknownTx(s, SweepNext(s, w), At(s, w).ids[0], "RECONCILIATION_EXHAUSTED", true, None);
      WorkerStep(s, SweepNext(s, w), w);
    } else if At(s, w).Sweeping? {
      LocalStep(s, SweepNext(s, w), w);
    }
  }

  lemma KeepQuery(s: System, w: nat)
    requires SysInv(s)
    ensures SysInv(Query(s, w))
    ensures Grows(s.local, Query(s, w).local)
  {
    assert WorkerOk(s, w);
    if At(s, w).Querying? {
      KeepQueried(s, Query(s, w), w, At(s, w).job);
    }
  }

  lemma KeepQueried(s: System, s': System, w: nat, j: Lease<string>)
    requires SysInv(s) && At(s, w) == Querying(j)
    requires s' == Goto(s, w, CheckingJob(j, GetRefund(s.world.store, j.row.payload)))
    ensures SysInv(s')
    ensures Grows(s.local, s'.local)
  {
    assert WorkerOk(s, w);
    LocalStep(s, s', w);
  }

  lemma KeepQueryFails(s: System, w: nat, code: string)
    requires SysInv(s)
    ensures SysInv(QueryFails(s, w, code))
    ensures Grows(s.local, QueryFails(s, w, code).local)
  {
    assert WorkerOk(s, w);
    if At(s, w).Querying? && code != "" {
      LocalStep(s, QueryFails(s, w, code), w);
    }
  }

  lemma KeepCheckJob(s: System, w: nat, now: real)
    requires SysInv(s)
    ensures SysInv(CheckJob(s, w, now))
    ensures Grows(s.local, CheckJob(s, w, now).local)
  {
    assert WorkerOk(s, w);
    if At(s, w).CheckingJob? {
      LocalStep(s, CheckJob(s, w, now), w);
    }
  }

  lemma AfterAnswer(s: System, w: nat, eventId: string)
    requires At(s, w).ApplyingJob?
    ensures var s' := ApplyAnswer(s, w, eventId, false); var (j, r) := (At(s, w).job, At(s, w).receipt);
      && s' == Goto(s.(local := ApplyReceiptTx(s.local, r, eventId, OfReceipt(r)).0), w, At(s', w))
      && (At(s', w).Idle? || (At(s', w).ClosingJob? && At(s', w).job == j && At(s', w).code != ""))
  {}

  lemma LostAnswer(s: System, w: nat, eventId: string)
    requires At(s, w).ApplyingJob?
    ensures ApplyAnswer(s, w, eventId, true) == Goto(s, w, ClosingJob(At(s, w).job, "INBOX_BUSY", None, "INBOX_BUSY"))
  {}

  lemma KeepApplyAnswer(s: System, w: nat, eventId: string, lost: bool)
    requires SysInv(s)
    ensures SysInv(ApplyAnswer(s, w, eventId, lost))
    ensures Grows(s.local, ApplyAnswer(s, w, eventId, lost).local)
  {
    if At(s, w).ApplyingJob? {
      assert WorkerOk(s, w);
      if lost {
        LostAnswer(s, w, eventId);
        LocalStep(s, ApplyAnswer(s, w, eventId, lost), w);
      } else {
        KeepAppliedAnswer(s, w, eventId);
      }
    }
  }

  lemma AnswerTx(s: System, s': System, w: nat, eventId: string)
    requires SysInv(s) && At(s, w).ApplyingJob?
    requires s' == Goto(s.(local := ApplyReceiptTx(s.local, At(s, w).receipt, eventId, OfReceipt(At(s, w).receipt)).0), w, At(s', w))
    ensures Tx(s, s') && forall v :: v != w ==> At(s', v) == At(s, v)
  {
    assert WorkerOk(s, w);
    ReceiptTx(s, s', At(s, w).receipt, eventId, OfReceipt(At(s, w).receipt));
  }

  lemma KeepAppliedAnswer(s: System, w: nat, eventId: string)
    requires SysInv(s) && At(s, w).ApplyingJob?
    ensures SysInv(ApplyAnswer(s, w, eventId, false))
    ensures Grows(s.local, ApplyAnswer(s, w, eventId, false).local)
  {
    AfterAnswer(s, w, eventId);
    AnswerTx(s, ApplyAnswer(s, w, eventId, false), w, eventId);
    KeepAnswered(s, ApplyAnswer(s, w, eventId, false), w);
  }

  lemma KeepAnswered(s: System, s': System, w: nat)
    requires SysInv(s) && At(s, w).ApplyingJob? && Tx(s, s')
    requires forall v :: v != w ==> At(s', v) == At(s, v)
    requires At(s', w).Idle? || (At(s', w).ClosingJob? && At(s', w).job == At(s, w).job && At(s', w).code != "")
    ensures SysInv(s')
    ensures Grows(s.local, s'.local)
  {
    assert WorkerOk(s, w);
    Keep(s, s', w, Querying(At(s, w).job));
    WorkerStep(s, s', w);
  }

  lemma KeepCloseJob(s: System, w: nat, checked: real, now: real)
    requires SysInv(s)
    ensures SysInv(CloseJob(s, w, checked, now))
    ensures Grows(s.local, CloseJob(s, w, checked, now).local)
  {
    assert WorkerOk(s, w);
    if At(s, w).ClosingJob? {
      var j := At(s, w);
      JobFinishTx(s, CloseJob(s, w, checked, now), j.job, j.code, j.delay, checked, now);
      WorkerStep(s, CloseJob(s, w, checked, now), w);
    }
  }

  // ----- provider and environment -----

  /** A provider step that issues receipts changes nothing locally. */
  lemma KeepIssue(s: System, s': System, actor: nat)
    requires SysInv(s)
    requires s' == s.(world := s'.world, workers := s'.workers, replies := s'.replies)
    requires WorldOk(s'.world) && WorldGrows(s.world, s'.world)
    requires s.replies <= s'.replies
    requires forall p {:trigger p in s'.replies} :: p in s'.replies && p !in s.replies ==> p.1 in s'.world.issued && p.1.command == p.0.command
    requires forall w :: w != actor ==> At(s', w) == At(s, w)
    requires StateOk(s', actor, At(s', actor))
    ensures SysInv(s')
    ensures Grows(s.local, s'.local)
  {
    LocalStable(s.local, s.world, s'.world);
    GrowsSame(s.local);
    forall q | q in s'.requests ensures RequestOk(s', q) { assert RequestOk(s, q); }
    forall w ensures WorkerOk(s', w) {
      if w != actor {
        assert WorkerOk(s, w);
        StateStable(s, s', w, At(s, w), actor);
      }
    }
  }

  lemma KeepDeliver(s: System, q: Request, refundId: string, eventId: string, now: real)
    requires SysInv(s)
    ensures SysInv(Deliver(s, q, refundId, eventId, now))
    ensures Grows(s.local, Deliver(s, q, refundId, eventId, now).local)
  {
    var s' := Deliver(s, q, refundId, eventId, now);
    if q in s.requests && refundId != "" && SubmitTx(s.world.store, q.command, refundId, eventId, now).1.Ok? {
      SubmitWorld(s.world, q.command, refundId, eventId, now);
      LocalStable(s.local, s.world, s'.world);
      GrowsSame(s.local);
      assert WorkerOk(s, 0);
      StateStable(s, s', 0, At(s, 0), 0);
      KeepIssue(s, s', 0);
    }
  }

  lemma SubmitWorld(w: World, c: Command, refundId: string, eventId: string, now: real)
    requires WorldOk(w) && refundId != ""
    requires SubmitTx(w.store, c, refundId, eventId, now).1.Ok?
    ensures var (store, answer) := SubmitTx(w.store, c, refundId, eventId, now);
      && WorldOk(World(store, w.issued + {answer.value}))
      && WorldGrows(w, World(store, w.issued + {answer.value}))
      && answer.value.command == c
  {
    var (store, answer) := SubmitTx(w.store, c, refundId, eventId, now);
    SubmitCases(w.store, c, refundId, eventId, now);
    SubmitKeeps(w.store, c, refundId, eventId, now);
    var w' := World(store, w.issued + {answer.value});
    assert RefundOk(c.key, store.refunds[c.key]);
    forall r | r in w'.issued ensures IssuedOk(w', r) {
      if r in w.issued { assert IssuedOk(w, r); }
    }
  }

  lemma KeepPollRefunds(s: System, w: nat, rows: seq<(string, Refund)>, now: real)
    requires SysInv(s)
    ensures SysInv(PollRefunds(s, w, rows, now))
    ensures Grows(s.local, PollRefunds(s, w, rows, now).local)
  {
    if PollRefunds(s, w, rows, now) != s {
      LocalStep(s, PollRefunds(s, w, rows, now), w);
    }
  }

  lemma KeepSettleNext(s: System, w: nat, eventId: string)
    requires SysInv(s)
    ensures SysInv(SettleNext(s, w, eventId))
    ensures Grows(s.local, SettleNext(s, w, eventId).local)
  {
    assert WorkerOk(s, w);
    if At(s, w).PollingRefunds? && At(s, w).refundRows != [] {
      KeepSettled(s, SettleNext(s, w, eventId), w, At(s, w).refundRows, eventId);
    } else if At(s, w).PollingRefunds? {
      LocalStep(s, SettleNext(s, w, eventId), w);
    }
  }

  lemma KeepSettled(s: System, s': System, w: nat, rows: seq<(string, Refund)>, eventId: string)
    requires SysInv(s) && At(s, w) == PollingRefunds(rows) && rows != []
    requires s'.world == SettledWorld(s.world, rows[0].0, rows[0].1, eventId)
    requires s' == Goto(s.(world := s'.world), w, PollingRefunds(rows[1..]))
    ensures SysInv(s')
    ensures Grows(s.local, s'.local)
  {
    assert WorkerOk(s, w);
    assert PolledRefunds(s.world.store, rows);
    SettleWorld(s.world, rows[0].0, rows[0].1, eventId);
    PolledRefundsTail(s, s', w, rows);
    KeepIssue(s, s', w);
  }

  lemma PolledRefundsTail(s: System, s': System, w: nat, rows: seq<(string, Refund)>)
    requires PolledRefunds(s.world.store, rows) && rows != [] && WorldGrows(s.world, s'.world)
    ensures PolledRefunds(s'.world.store, rows[1..])
  {
    PolledRefundsStable(s.world.store, s'.world.store, rows);
  }

  function SettledWorld(w: World, key: string, stale: Refund, eventId: string): World
  {
    var store := SettleTx(w.store, key, stale, eventId);
    World(store, if store == w.store then w.issued else w.issued + {SettledReceipt(stale)})
  }

  lemma SettleWorld(w: World, key: string, stale: Refund, eventId: string)
    requires WorldOk(w) && stale.status == InProgress
    requires key in w.store.refunds && RefundEvolves(stale, w.store.refunds[key])
    ensures WorldOk(SettledWorld(w, key, stale, eventId)) && WorldGrows(w, SettledWorld(w, key, stale, eventId))
  {
    var store := SettleTx(w.store, key, stale, eventId);
    SettleCases(w.store, key, stale, eventId);
    SettleKeeps(w.store, key, stale, eventId);
    if store != w.store {
      var w' := World(store, w.issued + {SettledReceipt(stale)});
      assert store.refunds[key].receipt == SettledReceipt(stale);
      forall r | r in w'.issued ensures IssuedOk(w', r) {
        if r in w.issued { assert IssuedOk(w, r); }
      }
    } else {
      assert World(store, w.issued) == w;
    }
  }

  lemma KeepSetFault(s: System, orderId: string, fault: Fault)
    requires SysInv(s)
    ensures SysInv(SetFault(s, orderId, fault))
    ensures Grows(s.local, SetFault(s, orderId, fault).local)
  {
    var s' := SetFault(s, orderId, fault);
    forall r | r in s'.world.issued ensures IssuedOk(s'.world, r) { assert IssuedOk(s.world, r); }
    LocalStable(s.local, s.world, s'.world);
    GrowsSame(s.local);
    assert WorkerOk(s, 0);
    StateStable(s, s', 0, At(s, 0), 0);
    KeepIssue(s, s', 0);
  }

  /** A step of the application that no worker takes part in. */
  lemma KeepOutside(s: System, s': System)
    requires SysInv(s)
    requires s' == s.(local := s'.local)
    requires LocalOk(s'.local, s.world) && Grows(s.local, s'.local) && Complete(s'.local) && CountsSame(s, s')
    ensures SysInv(s') && Grows(s.local, s'.local)
  {
    WorldSame(s.world);
    NetStable(s, s');
    forall w ensures WorkerOk(s', w) {
      assert WorkerOk(s, w);
      StateStable(s, s', w, At(s, w), 0);
    }
  }

  lemma KeepEnqueue(s: System, t: Template, actor: string, message: string, now: real)
    requires SysInv(s)
    ensures SysInv(s.(local := EnqueueTx(s.local, t, actor, PROVIDER, message, now).0))
    ensures Grows(s.local, s.(local := EnqueueTx(s.local, t, actor, PROVIDER, message, now).0).local)
  {
    EnqueueKeeps(s.local, s.world, t, actor, message, now);
    EnqueueComplete(s.local, s.world, t, actor, message, now);
    EnqueueCases(s.local, s.world, t, actor, message, now);
    KeepOutside(s, s.(local := EnqueueTx(s.local, t, actor, PROVIDER, message, now).0));
  }

  lemma KeepRequeue(s: System, id: string, actor: string, now: real)
    requires SysInv(s)
    ensures SysInv(s.(local := RequeueTx(s.local, id, actor, PROVIDER, now).0))
    ensures Grows(s.local, s.(local := RequeueTx(s.local, id, actor, PROVIDER, now).0).local)
  {
    RequeueKeeps(s.local, s.world, id, actor, now);
    var s' := s.(local := RequeueTx(s.local, id, actor, PROVIDER, now).0);
    GrowsComplete(s.local, s'.local);
    KeepOutside(s, s');
  }

  lemma KeepCallback(s: System, eventId: string)
    requires SysInv(s)
    ensures SysInv(Callback(s, eventId))
    ensures Grows(s.local, Callback(s, eventId).local)
  {
    var s' := Callback(s, eventId);
    if eventId in s.world.store.events && !s.world.store.events[eventId].dropped {
      var r := s.world.store.events[eventId].receipt;
      ReceiptTx(s, s', r, eventId, OfEvent(eventId, r));
      GrowsComplete(s.local, s'.local);
      KeepOutside(s, s');
    }
  }

  lemma KeepReviewCase(s: System, caseId: string, c: Case)
    requires SysInv(s)
    ensures SysInv(ReviewCase(s, caseId, c))
    ensures Grows(s.local, ReviewCase(s, caseId, c).local)
  {
    var s' := ReviewCase(s, caseId, c);
    if s' != s {
      forall id | id in s'.local.ops ensures OpOk(s'.local, s.world, id) { assert OpOk(s.local, s.world, id); }
      forall m | m in s'.local.outbox ensures OutboxRowOk(s'.local, s.world, s'.local.outbox[m]) {
        assert OutboxRowOk(s.local, s.world, s.local.outbox[m]);
      }
      forall j | j in s'.local.jobs ensures JobRowOk(s'.local, j, s'.local.jobs[j]) {
        assert JobRowOk(s.local, j, s.local.jobs[j]);
      }
      GrowsSame(s.local);
      KeepOutside(s, s');
    }
  }

  lemma KeepCrash(s: System, w: nat)
    requires SysInv(s)
    ensures SysInv(Goto(s, w, Idle))
    ensures Grows(s.local, Goto(s, w, Idle).local)
  {
    LocalStep(s, Goto(s, w, Idle), w);
  }

  lemma ApplicationKeeps(s: System, step: Step)
    requires SysInv(s)
    requires step.StepEnqueue? || step.StepRequeue? || step.StepReviewCase? || step.StepCallback? || step.StepCrash?
    ensures SysInv(Do(s, step))
    ensures Grows(s.local, Do(s, step).local)
  {
    match step
    case StepEnqueue(t, actor, message, now) => KeepEnqueue(s, t, actor, message, now);
    case StepRequeue(id, actor, now) => KeepRequeue(s, id, actor, now);
    case StepReviewCase(caseId, c) => KeepReviewCase(s, caseId, c);
    case StepCallback(eventId) => KeepCallback(s, eventId);
    case StepCrash(w) => KeepCrash(s, w);
  }

  lemma ProviderKeeps(s: System, step: Step)
    requires SysInv(s)
    requires step.StepDeliver? || step.StepSetFault? || step.StepPollRefunds? || step.StepSettleNext?
    ensures SysInv(Do(s, step))
    ensures Grows(s.local, Do(s, step).local)
  {
    match step
    case StepDeliver(q, refundId, eventId, now) => KeepDeliver(s, q, refundId, eventId, now);
    case StepSetFault(orderId, fault) => KeepSetFault(s, orderId, fault);
    case StepPollRefunds(w, rows, now) => KeepPollRefunds(s, w, rows, now);
    case StepSettleNext(w, eventId) => KeepSettleNext(s, w, eventId);
  }

  lemma ClaimingKeeps(s: System, step: Step)
    requires SysInv(s)
    requires step.StepPollOutbox? || step.StepTryOutbox? || step.StepMark?
    ensures SysInv(Do(s, step))
    ensures Grows(s.local, Do(s, step).local)
  {
    match step
    case StepPollOutbox(w, rows, now) => KeepPollOutbox(s, w, rows, now);
    case StepTryOutbox(w, owner, now, lease) => KeepTryOutbox(s, w, owner, now, lease);
    case StepMark(w, now) => KeepMark(s, w, now);
  }

  lemma SendingKeeps(s: System, step: Step)
    requires SysInv(s)
    requires step.StepCheck? || step.StepSend? || step.StepReceiveReply? || step.StepCallFails? || step.StepApplyReply?
    ensures SysInv(Do(s, step))
    ensures Grows(s.local, Do(s, step).local)
  {
    match step
    case StepCheck(w, now) => KeepCheck(s, w, now);
    case StepSend(w) => KeepSend(s, w);
    case StepReceiveReply(w, r) => KeepReceiveReply(s, w, r);
    case StepCallFails(w, code) => KeepCallFails(s, w, code);
    case StepApplyReply(w, eventId, lost) => KeepApplyReply(s, w, eventId, lost);
  }

  lemma ClosingKeeps(s: System, step: Step)
    requires SysInv(s)
    requires step.StepCloseDelivered? || step.StepDoubt? || step.StepCloseFailed? || step.StepEscalate?
    ensures SysInv(Do(s, step))
    ensures Grows(s.local, Do(s, step).local)
  {
    match step
    case StepCloseDelivered(w, checked, now) => KeepCloseDelivered(s, w, checked, now);
    case StepDoubt(w, now) => KeepDoubt(s, w, now);
    case StepCloseFailed(w, checked, now) => KeepCloseFailed(s, w, checked, now);
    case StepEscalate(w) => KeepEscalate(s, w);
  }

  lemma JobClaimingKeeps(s: System, step: Step)
    requires SysInv(s)
    requires step.StepPollJobs? || step.StepTryJob?
    ensures SysInv(Do(s, step))
    ensures Grows(s.local, Do(s, step).local)
  {
    match step
    case StepPollJobs(w, rows, now) => KeepPollJobs(s, w, rows, now);
    case StepTryJob(w, owner, now, lease) => KeepTryJob(s, w, owner, now, lease);
  }

  lemma QueryingKeeps(s: System, step: Step)
    requires SysInv(s)
    requires step.StepQuery? || step.StepQueryFails?
    ensures SysInv(Do(s, step))
    ensures Grows(s.local, Do(s, step).local)
  {
    match step
    case StepQuery(w) => KeepQuery(s, w);
    case StepQueryFails(w, code) => KeepQueryFails(s, w, code);
  }

  lemma AnsweringKeeps(s: System, step: Step)
    requires SysInv(s)
    requires step.StepCheckJob? || step.StepApplyAnswer? || step.StepCloseJob?
    ensures SysInv(Do(s, step))
    ensures Grows(s.local, Do(s, step).local)
  {
    match step
    case StepCheckJob(w, now) => KeepCheckJob(s, w, now);
    case StepApplyAnswer(w, eventId, lost) => KeepApplyAnswer(s, w, eventId, lost);
    case StepCloseJob(w, checked, now) => KeepCloseJob(s, w, checked, now);
  }

  lemma SweepingKeeps(s: System, step: Step)
    requires SysInv(s)
    requires step.StepStartSweep? || step.StepSweepNext?
    ensures SysInv(Do(s, step))
    ensures Grows(s.local, Do(s, step).local)
  {
    match step
    case StepStartSweep(w, ids) => KeepStartSweep(s, w, ids);
    case StepSweepNext(w) => KeepSweepNext(s, w);
  }

  lemma StepKeeps(s: System, step: Step)
    requires SysInv(s)
    ensures SysInv(Do(s, step))
    ensures Grows(s.local, Do(s, step).local)
  {
    if step.StepEnqueue? || step.StepRequeue? || step.StepReviewCase? || step.StepCallback? || step.StepCrash? {
      ApplicationKeeps(s, step);
    } else if step.StepDeliver? || step.StepSetFault? || step.StepPollRefunds? || step.StepSettleNext? {
      ProviderKeeps(s, step);
    } else if step.StepPollOutbox? || step.StepTryOutbox? || step.StepMark? {
      ClaimingKeeps(s, step);
    } else if step.StepCheck? || step.StepSend? || step.StepReceiveReply? || step.StepCallFails? || step.StepApplyReply? {
      SendingKeeps(s, step);
    } else if step.StepCloseDelivered? || step.StepDoubt? || step.StepCloseFailed? || step.StepEscalate? {
      ClosingKeeps(s, step);
    } else if step.StepPollJobs? || step.StepTryJob? {
      JobClaimingKeeps(s, step);
    } else if step.StepQuery? || step.StepQueryFails? {
      QueryingKeeps(s, step);
    } else if step.StepCheckJob? || step.StepApplyAnswer? || step.StepCloseJob? {
      AnsweringKeeps(s, step);
    } else {
      SweepingKeeps(s, step);
    }
  }
}
