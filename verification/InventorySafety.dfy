/**
 The invariant of confirmed inventory commands, kept by every step, and what follows from it.
 */
module InventorySafety {
  import opened Wrappers
  import opened LeaseQueues
  import opened Inventory
  import opened InventoryDelivery

  // ----- what holds of the tables -----

  /** The store has what the operation asked for. */
  predicate Fulfilled(store: Store, id: string, op: Operation)
  {
    match op.command
    case ReserveItem(sku, quantity) =>
      id in store.reservations && store.reservations[id].user == op.user
      && store.reservations[id].sku == sku && store.reservations[id].quantity == quantity
    case ReleaseItem(k) =>
      k in store.reservations && store.reservations[k].user == op.user && store.reservations[k].status == Released
  }

  predicate OpOk(s: System, id: string)
  {
    id in s.ops && s.ops[id].status == OpSucceeded ==> Fulfilled(s.store, id, s.ops[id])
  }

  predicate ReplyOk(s: System, call: Call, reply: Reply)
  {
    (call, reply) in s.replies && reply.Receipt? ==>
      reply.key in s.store.reservations && ReservationEvolves(reply.row, s.store.reservations[reply.key])
  }

  /** Every job belongs to one operation and every operation has at most one job. */
  predicate JobOk(s: System, a: string, b: string)
  {
    && (a in s.jobs ==> s.jobs[a].aggregate in s.ops)
    && (a in s.jobs && b in s.jobs && s.jobs[a].aggregate == s.jobs[b].aggregate ==> a == b)
  }

  predicate GrantOk(s: System, id: string, f: nat)
  {
    (id, f) in s.grants ==> id in s.jobs && f <= s.jobs[id].fence
  }

  // ----- what holds of a worker's memory -----

  ghost predicate ClaimOk(s: System, w: nat, claim: Lease<()>)
  {
    && claim.id in s.jobs && Evolves(claim.row, s.jobs[claim.id]) && claim.row.status == Running
    && (claim.id, claim.row.fence) in s.grants && s.grants[(claim.id, claim.row.fence)] == w
  }

  /** While nobody has claimed the job again, the operation has not succeeded behind the worker's back. */
  predicate OrderOk(s: System, claim: Lease<()>, op: Operation)
  {
    var id := claim.row.aggregate;
    && id in s.ops && s.ops[id].user == op.user && s.ops[id].command == op.command
    && (claim.id in s.jobs && s.jobs[claim.id].fence == claim.row.fence ==> s.ops[id].status != OpSucceeded)
  }

  predicate ReceiptOk(s: System, claim: Lease<()>, op: Operation, receipt: Reservation)
  {
    var id := claim.row.aggregate; var key := KeyOf(id, op);
    && key in s.store.reservations && ReservationEvolves(receipt, s.store.reservations[key])
    && Verified(id, op, Receipt(key, receipt))
  }

  ghost predicate WorkerFits(s: System, w: nat, worker: Worker)
  {
    match worker
    case Idle => true
    case Sweeping => true
    case Polling(rows) => forall i :: 0 <= i < |rows| ==> rows[i].0 in s.jobs && Evolves(rows[i].1, s.jobs[rows[i].0])
    case Loading(claim) => ClaimOk(s, w, claim)
    case Querying(claim, op) => ClaimOk(s, w, claim) && OrderOk(s, claim, op)
    case Checking(claim, op, _) => ClaimOk(s, w, claim) && OrderOk(s, claim, op)
    case Calling(claim, op, _) => ClaimOk(s, w, claim) && OrderOk(s, claim, op)
    case Saving(claim, op, receipt) => ClaimOk(s, w, claim) && OrderOk(s, claim, op) && ReceiptOk(s, claim, op, receipt)
    case Closing(claim) => ClaimOk(s, w, claim)
    case Failing(claim, _) => ClaimOk(s, w, claim)
    case ClosingFailed(claim, _) => ClaimOk(s, w, claim)
  }

  ghost predicate WorkerOk(s: System, w: nat)
  {
    WorkerFits(s, w, At(s, w))
  }

  ghost predicate TablesOk(s: System)
  {
    && TableOk(s.jobs) && StoreOk(s.store)
    && (forall id {:trigger OpOk(s, id)} :: OpOk(s, id))
    && (forall call, reply {:trigger ReplyOk(s, call, reply)} :: ReplyOk(s, call, reply))
    && (forall a, b {:trigger JobOk(s, a, b)} :: JobOk(s, a, b))
    && (forall id, f {:trigger GrantOk(s, id, f)} :: GrantOk(s, id, f))
  }

  ghost predicate Inv(s: System)
  {
    TablesOk(s) && (forall w {:trigger WorkerOk(s, w)} :: WorkerOk(s, w))
  }

  // ----- what every step only moves forward -----

  /** An operation keeps what was asked, and once succeeded it is never written again. */
  predicate OpEvolves(a: Operation, b: Operation)
  {
    a.user == b.user && a.command == b.command && (a.status == OpSucceeded ==> b == a)
  }

  ghost predicate OpsEvolve(a: map<string, Operation>, b: map<string, Operation>)
  {
    forall id :: id in a ==> id in b && OpEvolves(a[id], b[id])
  }

  ghost predicate Progress(s: System, s': System)
  {
    && OpsEvolve(s.ops, s'.ops) && TableEvolves(s.jobs, s'.jobs) && StoreEvolves(s.store, s'.store)
    && (forall g :: g in s.grants ==> g in s'.grants && s'.grants[g] == s.grants[g])
  }

  lemma ProgressTransitive(a: System, b: System, c: System)
    requires Progress(a, b) && Progress(b, c)
    ensures Progress(a, c)
  {
    TableEvolvesTransitive(a.jobs, b.jobs, c.jobs);
  }

  // ----- the store and its messages -----

  lemma PerformKeeps(store: Store, call: Call, sku: string)
    requires StoreOk(store)
    ensures var (store', reply) := Perform(store, call);
      && StoreOk(store') && StoreEvolves(store, store') && Total(store', sku) == Total(store, sku)
      && (reply.Receipt? ==> reply.key in store'.reservations && reply.row == store'.reservations[reply.key])
  {
    match call
    case QueryCall(_, _) =>
    case ReserveCall(key, user, sku', quantity) =>
      if Acceptable(quantity, key) { ReserveConserves(store, sku', quantity, key, user, sku); }
    case ReleaseCall(key, user) => ReleaseConserves(store, key, user, sku);
  }

  lemma StoreMoves(s: System, s': System)
    requires TablesOk(s) && s'.ops == s.ops && s'.jobs == s.jobs && s'.grants == s.grants
    requires StoreOk(s'.store) && StoreEvolves(s.store, s'.store)
    requires forall call, reply :: (call, reply) in s'.replies && (call, reply) !in s.replies && reply.Receipt? ==>
      reply.key in s'.store.reservations && reply.row == s'.store.reservations[reply.key]
    ensures TablesOk(s') && Progress(s, s')
  {
    forall id ensures OpOk(s', id) { assert OpOk(s, id); }
    forall call, reply ensures ReplyOk(s', call, reply) { assert ReplyOk(s, call, reply); }
    forall a, b ensures JobOk(s', a, b) { assert JobOk(s, a, b); }
    forall id, f ensures GrantOk(s', id, f) { assert GrantOk(s, id, f); }
  }

  lemma OpsMove(s: System, s': System)
    requires TablesOk(s) && s'.jobs == s.jobs && s'.grants == s.grants && s'.store == s.store && s'.replies == s.replies
    requires OpsEvolve(s.ops, s'.ops) && s'.ops.Keys == s.ops.Keys
    requires forall id :: id in s'.ops && s'.ops[id] != s.ops[id] && s'.ops[id].status == OpSucceeded ==> Fulfilled(s.store, id, s'.ops[id])
    ensures TablesOk(s') && Progress(s, s')
  {
    forall id ensures OpOk(s', id) { assert OpOk(s, id); }
    forall call, reply ensures ReplyOk(s', call, reply) { assert ReplyOk(s, call, reply); }
    forall a, b ensures JobOk(s', a, b) { assert JobOk(s, a, b); }
    forall id, f ensures GrantOk(s', id, f) { assert GrantOk(s, id, f); }
  }

  lemma JobsMove(s: System, s': System)
    requires TablesOk(s) && s'.ops == s.ops && s'.store == s.store && s'.replies == s.replies
    requires TableOk(s'.jobs) && TableEvolves(s.jobs, s'.jobs) && s'.jobs.Keys == s.jobs.Keys
    requires forall g :: g in s.grants ==> g in s'.grants && s'.grants[g] == s.grants[g]
    requires forall id, f :: (id, f) in s'.grants && (id, f) !in s.grants ==> id in s'.jobs && f <= s'.jobs[id].fence
    ensures TablesOk(s') && Progress(s, s')
  {
    forall id ensures OpOk(s', id) { assert OpOk(s, id); }
    forall call, reply ensures ReplyOk(s', call, reply) { assert ReplyOk(s, call, reply); }
    forall a, b ensures JobOk(s', a, b) { assert JobOk(s, a, b); }
    forall id, f ensures GrantOk(s', id, f) { assert GrantOk(s, id, f); }
  }

  lemma Untouched(s: System, s': System)
    requires TablesOk(s) && s'.ops == s.ops && s'.jobs == s.jobs && s'.store == s.store && s'.replies == s.replies && s'.grants == s.grants
    ensures TablesOk(s') && Progress(s, s')
  {
    StoreMoves(s, s');
  }

  lemma EnqueueJobs(s: System, s': System, id: string, message: string, op: Operation, row: Row<()>)
    requires TablesOk(s) && id !in s.ops && message !in s.jobs && row.aggregate == id
    requires s' == s.(ops := s.ops[id := op], jobs := s.jobs[message := row])
    ensures forall a, b :: JobOk(s', a, b)
  {
    forall a, b ensures JobOk(s', a, b) { assert JobOk(s, a, b) && JobOk(s, b, a); }
  }

  lemma EnqueueMoves(s: System, id: string, message: string, user: string, command: Command, now: real)
    requires TablesOk(s)
    ensures var s' := EnqueueStep(s, id, message, user, command, now); TablesOk(s') && Progress(s, s')
  {
    var s' := EnqueueStep(s, id, message, user, command, now);
    if s' != s { EnqueueJobs(s, s', id, message, s'.ops[id], s'.jobs[message]); }
    forall id ensures OpOk(s', id) { assert OpOk(s, id); }
    forall call, reply ensures ReplyOk(s', call, reply) { assert ReplyOk(s, call, reply); }
    forall id, f ensures GrantOk(s', id, f) { assert GrantOk(s, id, f); }
  }

  /** A lease that still passes the check is the row of the claim itself. */
  lemma OwnedIsCurrent(s: System, w: nat, claim: Lease<()>, now: real)
    requires ClaimOk(s, w, claim) && Owned(s.jobs, claim, now)
    ensures s.jobs[claim.id] == claim.row
  {}

  lemma SaveMoves(s: System, w: nat, now: real)
    requires TablesOk(s) && WorkerOk(s, w)
    ensures TablesOk(SaveStep(s, w, now)) && Progress(s, SaveStep(s, w, now))
  {
    OpsMove(s, SaveStep(s, w, now));
  }

  lemma MarkMoves(s: System, w: nat, now: real)
    requires TablesOk(s)
    ensures TablesOk(MarkFailedStep(s, w, now)) && Progress(s, MarkFailedStep(s, w, now))
  {
    OpsMove(s, MarkFailedStep(s, w, now));
  }

  lemma SweepMoves(s: System, w: nat)
    requires TablesOk(s)
    ensures TablesOk(SweepStep(s, w)) && Progress(s, SweepStep(s, w))
  {
    OpsMove(s, SweepStep(s, w));
  }

  lemma CloseMoves(s: System, w: nat, checked: real, now: real)
    requires TablesOk(s) && WorkerOk(s, w)
    ensures TablesOk(CloseStep(s, w, checked, now)) && Progress(s, CloseStep(s, w, checked, now))
  {
    if At(s, w).Closing? || At(s, w).ClosingFailed? {
      FinishKeeps(s.jobs, At(s, w).claim, if At(s, w).Closing? then "" else At(s, w).code, None, checked, now);
    }
    JobsMove(s, CloseStep(s, w, checked, now));
  }

  /** The conditional update of a claim and the grant of its fence. */
  lemma ClaimMoves(s: System, s': System, w: nat, id: string, stale: Row<()>, owner: string, now: real, lease: real)
    requires TablesOk(s) && id in s.jobs && Evolves(stale, s.jobs[id])
    requires s'.ops == s.ops && s'.store == s.store && s'.replies == s.replies
    requires var (jobs, claim) := TryClaim(s.jobs, id, stale, owner, now, lease);
      s'.jobs == jobs && s'.grants == if claim.Some? then s.grants[(id, claim.value.row.fence) := w] else s.grants
    ensures TablesOk(s') && Progress(s, s')
  {
    TryClaimKeeps(s.jobs, id, stale, owner, now, lease);
    assert GrantOk(s, id, s.jobs[id].fence + 1);
    JobsMove(s, s');
  }

  lemma ClaimFits(s: System, w: nat, owner: string, now: real, lease: real)
    requires TableOk(s.jobs) && WorkerOk(s, w)
    ensures var s' := TryStep(s, w, owner, now, lease);
      At(s, w).Polling? && At(s', w).Loading? ==> ClaimOk(s', w, At(s', w).claim)
  {
    if At(s, w).Polling? && At(s, w).rows != [] {
      TryClaimKeeps(s.jobs, At(s, w).rows[0].0, At(s, w).rows[0].1, owner, now, lease);
    }
  }

  lemma TryMoves(s: System, w: nat, owner: string, now: real, lease: real)
    requires TablesOk(s) && WorkerOk(s, w)
    ensures TablesOk(TryStep(s, w, owner, now, lease)) && Progress(s, TryStep(s, w, owner, now, lease))
  {
    var s' := TryStep(s, w, owner, now, lease);
    if At(s, w).Polling? && At(s, w).rows != [] {
      ClaimMoves(s, s', w, At(s, w).rows[0].0, At(s, w).rows[0].1, owner, now, lease);
    } else {
      Untouched(s, s');
    }
  }

  lemma ReceiveMoves(s: System, w: nat, reply: Reply)
    requires TablesOk(s)
    ensures TablesOk(ReceiveStep(s, w, reply)) && Progress(s, ReceiveStep(s, w, reply))
  {
    Untouched(s, ReceiveStep(s, w, reply));
  }

  lemma QuietMoves(s: System, step: Step)
    requires TablesOk(s)
    requires step.Poll? || step.Load? || step.CheckLease? || step.Trip? || step.Crash?
    ensures TablesOk(Do(s, step)) && Progress(s, Do(s, step))
  {
    var s' := Do(s, step);
    assert s'.ops == s.ops && s'.jobs == s.jobs && s'.store == s.store && s'.replies == s.replies && s'.grants == s.grants;
    Untouched(s, s');
  }

  lemma StoreStepMoves(s: System, step: Step)
    requires TablesOk(s) && (step.Deliver? || step.Foreign?)
    ensures TablesOk(Do(s, step)) && Progress(s, Do(s, step))
  {
    PerformKeeps(s.store, step.call, "");
    StoreMoves(s, Do(s, step));
  }

  lemma StepMoves(s: System, step: Step)
    requires Inv(s)
    ensures TablesOk(Do(s, step)) && Progress(s, Do(s, step))
  {
    match step
    case Enqueue(id, message, user, command, now) => EnqueueMoves(s, id, message, user, command, now);
    case TryJob(w, owner, now, lease) => assert WorkerOk(s, w); TryMoves(s, w, owner, now, lease);
    case Save(w, now) => assert WorkerOk(s, w); SaveMoves(s, w, now);
    case Close(w, checked, now) => assert WorkerOk(s, w); CloseMoves(s, w, checked, now);
    case MarkFailed(w, now) => MarkMoves(s, w, now);
    case SweepDead(w) => SweepMoves(s, w);
    case Deliver(_) => StoreStepMoves(s, step);
    case Foreign(_) => StoreStepMoves(s, step);
    case Receive(w, reply) => ReceiveMoves(s, w, reply);
    case _ => QuietMoves(s, step);
  }

  // ----- workers -----

  /** Only the worker holding an operation's lease can make it succeed. */
  lemma SaveIsTheHolders(s: System, saver: nat, now: real, w: nat, claim: Lease<()>, op: Operation)
    requires TablesOk(s) && WorkerOk(s, saver) && saver != w && ClaimOk(s, w, claim) && OrderOk(s, claim, op)
    ensures OrderOk(SaveStep(s, saver, now), claim, op)
  {
    if At(s, saver).Saving? && Owned(s.jobs, At(s, saver).claim, now) {
      OwnedIsCurrent(s, saver, At(s, saver).claim, now);
      assert JobOk(s, claim.id, At(s, saver).claim.id);
    }
  }

  lemma NewSuccess(s: System, step: Step, id: string)
    requires !step.Save? && id in s.ops && s.ops[id].status != OpSucceeded
    ensures id in Do(s, step).ops ==> Do(s, step).ops[id].status != OpSucceeded
  {}

  lemma NoOtherSuccess(s: System, step: Step, w: nat, claim: Lease<()>, op: Operation)
    requires Inv(s) && ClaimOk(s, w, claim) && OrderOk(s, claim, op)
    requires !(step.Save? && step.worker == w)
    ensures OrderOk(Do(s, step), claim, op)
  {
    var id := claim.row.aggregate;
    if step.Save? {
      assert WorkerOk(s, step.worker);
      SaveIsTheHolders(s, step.worker, step.now, w, claim, op);
    } else {
      StepMoves(s, step);
      if s.ops[id].status != OpSucceeded { NewSuccess(s, step, id); }
    }
  }

  lemma FitsLater(s: System, step: Step, w: nat, worker: Worker)
    requires Inv(s) && WorkerFits(s, w, worker) && !(step.Save? && step.worker == w)
    ensures WorkerFits(Do(s, step), w, worker)
  {
    StepMoves(s, step);
    WorkerStays(s, step, w, worker);
  }

  lemma WorkerStays(s: System, step: Step, w: nat, worker: Worker)
    requires Inv(s) && WorkerFits(s, w, worker) && !(step.Save? && step.worker == w) && Progress(s, Do(s, step))
    ensures WorkerFits(Do(s, step), w, worker)
  {
    var s' := Do(s, step);
    if worker.Polling? {
      forall i | 0 <= i < |worker.rows| ensures Evolves(worker.rows[i].1, s'.jobs[worker.rows[i].0]) {
        EvolvesTransitive(worker.rows[i].1, s.jobs[worker.rows[i].0], s'.jobs[worker.rows[i].0]);
      }
    } else if !worker.Idle? && !worker.Sweeping? {
      EvolvesTransitive(worker.claim.row, s.jobs[worker.claim.id], s'.jobs[worker.claim.id]);
      if worker.Querying? || worker.Checking? || worker.Calling? || worker.Saving? {
        NoOtherSuccess(s, step, w, worker.claim, worker.op);
      }
    }
  }

  lemma JudgeFits(s: System, w: nat, claim: Lease<()>, op: Operation, call: Call, reply: Reply)
    requires TablesOk(s) && ClaimOk(s, w, claim) && OrderOk(s, claim, op) && (call, reply) in s.replies
    ensures WorkerFits(s, w, Judge(claim, op, reply))
  {
    assert ReplyOk(s, call, reply);
  }

  lemma ReceiveFits(s: System, w: nat, reply: Reply)
    requires TablesOk(s) && WorkerOk(s, w)
    ensures WorkerFits(s, w, Received(At(s, w), s.replies, reply))
  {
    match At(s, w)
    case Querying(claim, op) =>
      var call := Query(claim.row.aggregate, op);
      if (call, reply) in s.replies { JudgeFits(s, w, claim, op, call, reply); }
    case Calling(claim, op, call) => if (call, reply) in s.replies { JudgeFits(s, w, claim, op, call, reply); }
    case _ =>
  }

  /** What fits the tables fits them wherever the worker is. */
  lemma GotoFits(s: System, w: nat, next: Worker)
    requires WorkerFits(s, w, next)
    ensures WorkerOk(Goto(s, w, next), w)
  {}

  lemma LoadFits(s: System, w: nat)
    requires Inv(s)
    ensures WorkerOk(Do(s, Load(w)), w)
  {
    assert WorkerOk(s, w);
  }

  lemma OwnStepFits(s: System, step: Step, w: nat)
    requires Inv(s)
    requires step.Poll? || step.SweepDead? || step.CheckLease? || step.Trip? || step.MarkFailed? || step.Crash?
    requires step.worker == w
    ensures WorkerOk(Do(s, step), w)
  {
    assert WorkerOk(s, w);
    StepMoves(s, step);
  }

  lemma ClosingFits(s: System, step: Step, w: nat)
    requires Inv(s) && (step.Save? || step.Close?) && step.worker == w
    ensures WorkerOk(Do(s, step), w)
  {
    assert WorkerOk(s, w);
    StepMoves(s, step);
  }

  lemma TryFits(s: System, step: Step, w: nat)
    requires Inv(s) && step.TryJob? && step.worker == w
    ensures WorkerOk(Do(s, step), w)
  {
    assert WorkerOk(s, w);
    ClaimFits(s, w, step.owner, step.now, step.lease);
    if At(s, w).Polling? && At(s, w).rows != [] {
      FitsLater(s, step, w, Polling(At(s, w).rows[1..]));
    }
  }

  predicate ActsFor(step: Step, w: nat)
  {
    !step.Enqueue? && !step.Deliver? && !step.Foreign? && step.worker == w
  }

  lemma OwnFits(s: System, step: Step, w: nat)
    requires Inv(s) && ActsFor(step, w)
    ensures WorkerOk(Do(s, step), w)
  {
    assert WorkerOk(s, w);
    match step
    case Receive(_, reply) =>
      ReceiveFits(s, w, reply);
      GotoFits(s, w, Received(At(s, w), s.replies, reply));
    case Load(_) => LoadFits(s, w);
    case TryJob(_, _, _, _) => TryFits(s, step, w);
    case Save(_, _) => ClosingFits(s, step, w);
    case Close(_, _, _) => ClosingFits(s, step, w);
    case _ => OwnStepFits(s, step, w);
  }

  lemma StepFits(s: System, step: Step, w: nat)
    requires Inv(s)
    ensures WorkerOk(Do(s, step), w)
  {
    if ActsFor(step, w) {
      OwnFits(s, step, w);
    } else {
      assert WorkerOk(s, w);
      OthersLeave(s, step, w);
      FitsLater(s, step, w, At(s, w));
    }
  }

  lemma OthersLeave(s: System, step: Step, w: nat)
    requires !ActsFor(step, w)
    ensures At(Do(s, step), w) == At(s, w)
  {}

  lemma {:induction false} RunKeeps(s: System, steps: seq<Step>)
    requires Inv(s)
    ensures Inv(Run(s, steps)) && Progress(s, Run(s, steps))
    decreases |steps|
  {
    if steps != [] {
      StepMoves(s, steps[0]);
      forall w ensures WorkerOk(Do(s, steps[0]), w) { StepFits(s, steps[0], w); }
      RunKeeps(Do(s, steps[0]), steps[1..]);
      ProgressTransitive(s, Do(s, steps[0]), Run(s, steps));
    }
  }

  lemma InitialInv(s: System)
    requires Initial(s)
    ensures Inv(s)
  {}

  // ----- the promises -----

  lemma StepConserves(s: System, step: Step, sku: string)
    requires StoreOk(s.store)
    ensures Total(Do(s, step).store, sku) == Total(s.store, sku)
  {
    if step.Deliver? || step.Foreign? {
      PerformKeeps(s.store, step.call, sku);
    } else {
      OnlyCallsMoveStock(s, step);
    }
  }

  lemma OnlyCallsMoveStock(s: System, step: Step)
    requires !step.Deliver? && !step.Foreign?
    ensures Do(s, step).store == s.store
  {}

  /**
   Conservation: under any schedule of workers, crashes, retries, late and repeated calls and other
   clients, the available stock of a SKU plus what is still reserved never changes.
   */
  lemma {:induction false} StockIsConserved(s: System, steps: seq<Step>, sku: string)
    requires Inv(s)
    ensures Total(Run(s, steps).store, sku) == Total(s.store, sku)
    ensures sku in Run(s, steps).store.stock ==> 0 <= Run(s, steps).store.stock[sku].available
    decreases |steps|
  {
    RunKeeps(s, steps);
    if steps != [] {
      StepConserves(s, steps[0], sku);
      StepMoves(s, steps[0]);
      forall w ensures WorkerOk(Do(s, steps[0]), w) { StepFits(s, steps[0], w); }
      StockIsConserved(Do(s, steps[0]), steps[1..], sku);
    }
  }

  /**
   Success is real: an operation reported as succeeded has its one reservation, under its own key,
   with its SKU, quantity and user - released, when the operation was a release.
   */
  lemma SucceededIsReserved(start: System, steps: seq<Step>, id: string)
    requires Initial(start)
    requires id in Run(start, steps).ops && Run(start, steps).ops[id].status == OpSucceeded
    ensures Fulfilled(Run(start, steps).store, id, Run(start, steps).ops[id])
  {
    InitialInv(start);
    RunKeeps(start, steps);
    assert OpOk(Run(start, steps), id);
  }

  /** Success is final: no retry, late failure or sweep ever writes the operation again. */
  lemma SucceededIsFinal(start: System, before: seq<Step>, after: seq<Step>, id: string)
    requires Initial(start)
    requires id in Run(start, before).ops && Run(start, before).ops[id].status == OpSucceeded
    ensures id in Run(Run(start, before), after).ops
    ensures Run(Run(start, before), after).ops[id] == Run(start, before).ops[id]
  {
    InitialInv(start);
    RunKeeps(start, before);
    RunKeeps(Run(start, before), after);
  }

  /** The stock taken and not yet given back by one reservation key. */
  function Effect(s: Store, key: string): int
  {
    if key !in s.reservations || s.reservations[key].status == Released then 0 else s.reservations[key].quantity
  }

  /** What one call does to the store when it moves stock. */
  ghost predicate OneKeyMoves(s: Store, s': Store, key: string)
  {
    && key in s'.reservations
    && (if key !in s.reservations then s'.reservations[key].status == Reserved
        else s.reservations[key].status == Reserved && s'.reservations[key].status == Released)
    && (forall other :: other in s'.reservations && other != key ==>
          other in s.reservations && s'.reservations[other] == s.reservations[other])
    && (forall sku :: AvailableOf(s', sku) - AvailableOf(s, sku)
          == if sku == s'.reservations[key].sku then Effect(s, key) - Effect(s', key) else 0)
  }

  lemma CallMovesOneKey(s: Store, call: Call)
    requires StoreOk(s) && Perform(s, call).0.stock != s.stock
    ensures OneKeyMoves(s, Perform(s, call).0, call.key)
  {}

  /**
   A key takes stock at most once and gives it back at most once: stock moves exactly when some key
   goes from unknown to reserved or from reserved to released, neither of which a key can undo.
   */
  lemma StockMovesWithAKey(s: System, step: Step)
    requires Inv(s) && Do(s, step).store.stock != s.store.stock
    ensures (step.Deliver? || step.Foreign?) && OneKeyMoves(s.store, Do(s, step).store, step.call.key)
  {
    if step.Deliver? || step.Foreign? {
      CallMovesOneKey(s.store, step.call);
    } else {
      OnlyCallsMoveStock(s, step);
    }
  }

  /** 0 for an unknown key, 1 while it holds stock, 2 once it has given it back. */
  function Stage(s: Store, key: string): nat
  {
    if key !in s.reservations then 0 else if s.reservations[key].status == Reserved then 1 else 2
  }

  /** The step is a call under this key that moves stock. */
  predicate MovesStock(s: System, step: Step, key: string)
  {
    (step.Deliver? || step.Foreign?) && step.call.key == key && Do(s, step).store.stock != s.store.stock
  }

  function Moves(s: System, steps: seq<Step>, key: string): nat
    decreases |steps|
  {
    if steps == [] then 0 else (if MovesStock(s, steps[0], key) then 1 else 0) + Moves(Do(s, steps[0]), steps[1..], key)
  }

  lemma CallStages(s: Store, call: Call, key: string)
    requires StoreOk(s)
    ensures Stage(Perform(s, call).0, key) ==
      Stage(s, key) + if call.key == key && Perform(s, call).0.stock != s.stock then 1 else 0
  {}

  lemma StepStages(s: System, step: Step, key: string)
    requires StoreOk(s.store)
    ensures Stage(Do(s, step).store, key) == Stage(s.store, key) + if MovesStock(s, step, key) then 1 else 0
  {
    if step.Deliver? || step.Foreign? {
      CallStages(s.store, step.call, key);
    } else {
      OnlyCallsMoveStock(s, step);
    }
  }

  /**
   The number of times a key moves stock in a run is exactly how far its reservation got: so it
   takes stock at most once and gives it back at most once, however often calls are repeated.
   */
  lemma {:induction false} KeyMovesStockTwiceAtMost(s: System, steps: seq<Step>, key: string)
    requires Inv(s)
    ensures Moves(s, steps, key) == Stage(Run(s, steps).store, key) - Stage(s.store, key)
    ensures Moves(s, steps, key) <= 2
    decreases |steps|
  {
    if steps != [] {
      StepStages(s, steps[0], key);
      StepMoves(s, steps[0]);
      forall w ensures WorkerOk(Do(s, steps[0]), w) { StepFits(s, steps[0], w); }
      KeyMovesStockTwiceAtMost(Do(s, steps[0]), steps[1..], key);
    }
  }
}
