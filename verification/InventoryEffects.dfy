/**
 When the reservation store accepts and what it writes, what a worker concludes from a reply, and why
 no write is ever sent without a query that called for it.
 */
module InventoryEffects {
  import opened Wrappers
  import opened LeaseQueues
  import opened Inventory
  import opened InventoryDelivery

  // ----- the store -----

  lemma AcceptableIff(quantity: int, key: string)
    ensures Acceptable(quantity, key) <==> 0 < quantity < 101 && 0 < |key| < 256
  {}

  /**
   A known key repeats its reservation for the same request and conflicts with any other; a new one is
   reserved exactly if the shelf holds the quantity, which is then taken off it.
   */
  lemma ReserveDecides(s: Store, sku: string, quantity: int, key: string, user: string)
    ensures var (s', r) := ReserveTx(s, sku, quantity, key, user); var known := key in s.reservations;
      var same := known && (s.reservations[key].user, s.reservations[key].sku, s.reservations[key].quantity) == (user, sku, quantity);
      var enough := sku in s.stock && quantity <= s.stock[sku].available;
      && (r == Err(KeyConflict) <==> known && !same)
      && (r == Err(StockInsufficient) <==> !known && !enough)
      && (r.Ok? <==> same || (!known && enough))
      && (same ==> r.value == s.reservations[key])
      && (known || !enough ==> s' == s)
      && (!known && enough ==>
            && r.value == Reservation(user, sku, quantity, Reserved, 1)
            && s'.reservations == s.reservations[key := r.value]
            && s'.stock == s.stock[sku := s'.stock[sku]]
            && s.stock[sku].available - s'.stock[sku].available == quantity && s'.stock[sku].version == s.stock[sku].version + 1)
  {}

  /** Only the owner releases; the first release puts the quantity back, the next ones repeat its answer. */
  lemma ReleaseDecides(s: Store, key: string, user: string)
    ensures var (s', r) := ReleaseTx(s, key, user); var mine := key in s.reservations && s.reservations[key].user == user;
      && (r == Err(ReservationNotFound) <==> !mine) && (r.Ok? <==> mine)
      && (!mine || s.reservations[key].status.Released? ==> s' == s)
      && (mine ==> r.value == s'.reservations[key] && r.value.status == Released)
      && (mine && s.reservations[key].status.Reserved? ==>
            && var row := s.reservations[key];
            && r.value == row.(status := Released, version := row.version + 1)
            && s'.reservations == s.reservations[key := r.value]
            && (row.sku !in s.stock ==> s'.stock == s.stock)
            && (row.sku in s.stock ==>
                  && s'.stock == s.stock[row.sku := s'.stock[row.sku]]
                  && s'.stock[row.sku].available - s.stock[row.sku].available == row.quantity
                  && s'.stock[row.sku].version == s.stock[row.sku].version + 1))
  {}

  /** A query shows its own user's reservation under the key, and changes nothing. */
  lemma QueryShows(s: Store, key: string, user: string)
    ensures var (s', reply) := Perform(s, QueryCall(key, user));
      && s' == s
      && reply == if key in s.reservations && s.reservations[key].user == user then Receipt(key, s.reservations[key]) else NotFound
  {}

  /** A write call is the store's own operation; what the store refuses is refused. */
  lemma WritesPerform(s: Store, key: string, user: string, sku: string, quantity: int)
    ensures var (s', reply) := Perform(s, ReserveCall(key, user, sku, quantity)); var tx := ReserveTx(s, sku, quantity, key, user);
      if 0 < quantity < 101 && 0 < |key| < 256 then s' == tx.0 && reply == if tx.1.Ok? then Receipt(key, tx.1.value) else Refused
      else s' == s && reply == Refused
    ensures var (s', reply) := Perform(s, ReleaseCall(key, user)); var tx := ReleaseTx(s, key, user);
      s' == tx.0 && reply == if tx.1.Ok? then Receipt(key, tx.1.value) else Refused
  {}

  // ----- a worker's conclusions -----

  /** A reply proves success exactly when every field of the receipt is the operation's. */
  lemma VerifiedIff(id: string, op: Operation, reply: Reply)
    ensures Verified(id, op, reply) <==>
      && reply.Receipt? && reply.row.user == op.user
      && (match op.command
          case ReserveItem(sku, quantity) => reply.key == id && reply.row == Reservation(op.user, sku, quantity, Reserved, reply.row.version)
          case ReleaseItem(key) => reply.key == key && reply.row.status == Released)
  {}

  /**
   The write after a query: a reservation under the operation's own id when there is none yet, a
   release when the reservation is still held, otherwise nothing.
   */
  lemma NextCallIs(id: string, op: Operation, reply: Reply)
    ensures NextCall(id, op, reply) ==
      match op.command
      case ReserveItem(sku, quantity) => if reply == NotFound then Some(ReserveCall(id, op.user, sku, quantity)) else None
      case ReleaseItem(key) =>
        match reply
        case Receipt(_, row) => if row.status.Reserved? then Some(ReleaseCall(key, op.user)) else None
        case _ => None
    ensures Query(id, op) == QueryCall(if op.command.ReserveItem? then id else op.command.reservation, op.user)
  {}

  /** A failure never touches a success; the last attempt leaves the operation to a human. */
  lemma FailureIsRecorded(op: Operation, claim: Lease<()>, code: string)
    ensures var op' := FailedOp(op, claim, code);
      if op.status.OpSucceeded? then op' == op
      else
        && op'.user == op.user && op'.command == op.command && op'.result == op.result && op'.error == code
        && op'.status == if claim.row.maxAttempts <= claim.row.attempt then OpNeedsReconciliation else OpUnknown
  {}

  /** The sweep leaves exactly the undecided operations of dead jobs to a human. */
  lemma SweepMarksExactly(s: System, w: nat, id: string)
    requires At(s, w).Sweeping? && id in s.ops
    ensures var s' := SweepStep(s, w); var op, op' := s.ops[id], s'.ops[id];
      var dead := exists m :: m in s.jobs && s.jobs[m].aggregate == id && s.jobs[m].status.Dead?;
      && s'.ops.Keys == s.ops.Keys && s'.jobs == s.jobs && s'.store == s.store && At(s', w).Idle?
      && op' == if dead && (op.status.OpPending? || op.status.OpUnknown?)
                then op.(status := OpNeedsReconciliation, error := "ATTEMPTS_EXHAUSTED") else op
  {
    assert IsDead(s.jobs, id) <==> exists m :: m in s.jobs && s.jobs[m].aggregate == id && s.jobs[m].status.Dead?;
  }

  /** Success and failure reach the operation exactly under the lease of the claim. */
  lemma OutcomeNeedsLease(s: System, w: nat, now: real)
    ensures At(s, w).Saving? ==>
      && var c, s' := At(s, w).claim, SaveStep(s, w, now); var id := c.row.aggregate;
      && (if !Owned(s.jobs, c, now) then s'.ops == s.ops && At(s', w) == Idle
          else At(s', w) == Closing(c)
               && s'.ops == if id in s.ops then s.ops[id := s.ops[id].(status := OpSucceeded, result := Some(At(s, w).receipt), error := "")] else s.ops)
    ensures At(s, w).Failing? ==>
      && var c, s' := At(s, w).claim, MarkFailedStep(s, w, now); var id := c.row.aggregate;
      && (if !Owned(s.jobs, c, now) then s'.ops == s.ops && At(s', w) == Idle
          else At(s', w) == ClosingFailed(c, At(s, w).code)
               && s'.ops == if id in s.ops then s.ops[id := FailedOp(s.ops[id], c, At(s, w).code)] else s.ops)
  {}

  /** A write is sent exactly under the lease of the claim, once more checked just before. */
  lemma SendNeedsLease(s: System, w: nat, now: real)
    requires At(s, w).Checking?
    ensures var worker, s' := At(s, w), CheckStep(s, w, now);
      && s'.ops == s.ops && s'.jobs == s.jobs && s'.store == s.store && s'.replies == s.replies
      && (if Owned(s.jobs, worker.claim, now)
          then At(s', w) == Calling(worker.claim, worker.op, worker.call) && s'.calls == s.calls + {worker.call}
          else At(s', w) == Idle && s'.calls == s.calls)
  {}

  /** Closing finishes the claim, as delivered or with the error; anything that goes wrong before ends in failure. */
  lemma ClosingFinishes(s: System, w: nat, checked: real, now: real, code: string)
    ensures At(s, w).Closing? || At(s, w).ClosingFailed? ==>
      && var worker, s' := At(s, w), CloseStep(s, w, checked, now);
      && s'.jobs == FinishLease(s.jobs, worker.claim, if worker.ClosingFailed? then worker.code else "", None, checked, now).0
      && At(s', w) == Idle && s'.ops == s.ops && s'.store == s.store && s'.calls == s.calls
    ensures |code| > 0 && (At(s, w).Loading? || At(s, w).Querying? || At(s, w).Checking? || At(s, w).Calling?) ==>
      At(TripStep(s, w, code), w) == Failing(At(s, w).claim, code)
  {}

  /** A claimed operation that has succeeded is only closed; any other starts with a query of its key. */
  lemma LoadQueriesFirst(s: System, w: nat)
    requires At(s, w).Loading?
    ensures var c, s' := At(s, w).claim, LoadStep(s, w); var id := c.row.aggregate;
      && s'.ops == s.ops && s'.jobs == s.jobs && s'.store == s.store
      && (id !in s.ops ==> At(s', w).Failing? && s'.calls == s.calls)
      && (id in s.ops && s.ops[id].status.OpSucceeded? ==> At(s', w) == Closing(c) && s'.calls == s.calls)
      && (id in s.ops && !s.ops[id].status.OpSucceeded? ==>
            At(s', w) == Querying(c, s.ops[id]) && s'.calls == s.calls + {Query(id, s.ops[id])})
  {}

  /** A command is queued with its job, both new; a release needs the caller's own succeeded reservation. */
  lemma EnqueueStores(s: System, id: string, message: string, user: string, command: Command, now: real)
    ensures var s' := EnqueueStep(s, id, message, user, command, now);
      var allowed := match command
        case ReserveItem(_, _) => true
        case ReleaseItem(key) =>
          key in s.ops && s.ops[key].user == user && s.ops[key].command.ReserveItem? && s.ops[key].status.OpSucceeded?;
      if id !in s.ops && message !in s.jobs && allowed then
        && s' == s.(ops := s.ops[id := Operation(user, command, OpPending, None, "")], jobs := s.jobs[message := s'.jobs[message]])
        && s'.jobs[message].aggregate == id && s'.jobs[message].maxAttempts == 8 && s'.jobs[message].attempt == 0
        && (forall at :: Eligible(s'.jobs[message], at) <==> now <= at)
      else s' == s
  {}

  // ----- no write without a query -----

  /** A query of the same key and user was answered in a way that called for this write. */
  predicate CalledFor(replies: set<(Call, Reply)>, call: Call)
  {
    match call
    case QueryCall(_, _) => true
    case ReserveCall(key, user, _, _) => (QueryCall(key, user), NotFound) in replies
    case ReleaseCall(key, user) =>
      exists r: (Call, Reply) :: r in replies && r.0 == QueryCall(key, user) && r.1.Receipt? && r.1.row.status == Reserved
  }

  predicate Justified(s: System, w: nat)
  {
    match At(s, w)
    case Checking(_, _, call) => CalledFor(s.replies, call)
    case Calling(_, _, call) => CalledFor(s.replies, call)
    case _ => true
  }

  ghost predicate AllJustified(s: System)
  {
    && (forall c {:trigger CalledFor(s.replies, c)} :: c in s.calls ==> CalledFor(s.replies, c))
    && (forall w {:trigger Justified(s, w)} :: Justified(s, w))
  }

  lemma MoreReplies(a: set<(Call, Reply)>, b: set<(Call, Reply)>, call: Call)
    requires a <= b && CalledFor(a, call)
    ensures CalledFor(b, call)
  {
    if call.ReleaseCall? {
      var r :| r in a && r.0 == QueryCall(call.key, call.user) && r.1.Receipt? && r.1.row.status == Reserved;
      assert r in b;
    }
  }

  /** What a reply makes a worker do was called for by it. */
  lemma ReceivedIsCalledFor(worker: Worker, replies: set<(Call, Reply)>, reply: Reply)
    ensures var next := Received(worker, replies, reply);
      next.Checking? && next != worker ==> CalledFor(replies, next.call)
    ensures var next := Received(worker, replies, reply); next.Calling? ==> next == worker
  {
    match worker
    case Querying(claim, op) =>
      var id := claim.row.aggregate;
      if (Query(id, op), reply) in replies && NextCall(id, op, reply).Some? {
        assert CalledFor(replies, NextCall(id, op, reply).value);
      }
    case _ =>
  }

  lemma RepliesGrow(s: System, step: Step)
    ensures s.replies <= Do(s, step).replies
  {}

  predicate Carries(worker: Worker, call: Call)
  {
    (worker.Checking? || worker.Calling?) && worker.call == call
  }

  /** A worker comes to a call only by a reply; the lease check passes the same call on. */
  lemma WhereCallsComeFrom(s: System, step: Step, w: nat, call: Call)
    requires Carries(At(Do(s, step), w), call) && !Carries(At(s, w), call)
    ensures step.Receive? && step.worker == w && At(Do(s, step), w) == Received(At(s, w), s.replies, step.reply)
    ensures Do(s, step).replies == s.replies
  {}

  lemma StepJustifies(s: System, step: Step, w: nat)
    requires AllJustified(s)
    ensures Justified(Do(s, step), w)
  {
    var next := At(Do(s, step), w);
    if next.Checking? || next.Calling? {
      if Carries(At(s, w), next.call) {
        assert Justified(s, w);
        RepliesGrow(s, step);
        MoreReplies(s.replies, Do(s, step).replies, next.call);
      } else {
        WhereCallsComeFrom(s, step, w, next.call);
        ReceivedIsCalledFor(At(s, w), s.replies, step.reply);
      }
    }
  }

  lemma CallsGrow(s: System, step: Step, call: Call)
    requires call in Do(s, step).calls && call !in s.calls
    ensures Do(s, step).replies == s.replies
    ensures call.QueryCall? || (step.CheckLease? && At(s, step.worker).Checking? && At(s, step.worker).call == call)
  {}

  lemma {:induction false} RunJustifies(s: System, steps: seq<Step>)
    requires AllJustified(s)
    ensures AllJustified(Run(s, steps))
    decreases |steps|
  {
    if steps != [] {
      var s' := Do(s, steps[0]);
      forall w ensures Justified(s', w) { StepJustifies(s, steps[0], w); }
      forall c | c in s'.calls ensures CalledFor(s'.replies, c) {
        if c in s.calls {
          assert CalledFor(s.replies, c);
          MoreReplies(s.replies, s'.replies, c);
        } else {
          CallsGrow(s, steps[0], c);
          if !c.QueryCall? { assert Justified(s, steps[0].worker); }
        }
      }
      RunJustifies(s', steps[1..]);
    }
  }

  /**
   Query before retry: in every run a reservation is only ever sent after the store has answered that
   there is none under its key, and a release only after it has answered that one is held.
   */
  lemma QueryBeforeWrite(s: System, steps: seq<Step>, call: Call)
    requires Initial(s) && call in Run(s, steps).calls
    ensures CalledFor(Run(s, steps).replies, call)
  {
    forall w ensures Justified(s, w) {}
    RunJustifies(s, steps);
  }
}
