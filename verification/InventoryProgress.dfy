/**
 Left alone, an inventory worker gets there: one undisturbed round of a due job queries, reserves and
 reports, or, when the reservation is already there, only queries and reports.
 */
module InventoryProgress {
  import opened Wrappers
  import opened LeaseQueues
  import opened Inventory
  import opened InventoryDelivery

  lemma RunFirst(s: System, step: Step, rest: seq<Step>)
    ensures Run(s, [step] + rest) == Run(Do(s, step), rest)
  {
    assert ([step] + rest)[0] == step && ([step] + rest)[1..] == rest;
  }

  lemma FiveSteps(s: System, a: Step, b: Step, c: Step, d: Step, e: Step, rest: seq<Step>)
    ensures Run(s, [a] + ([b] + ([c] + ([d] + ([e] + rest))))) == Run(Do(Do(Do(Do(Do(s, a), b), c), d), e), rest)
  {
    RunFirst(s, a, [b] + ([c] + ([d] + ([e] + rest))));
    RunFirst(Do(s, a), b, [c] + ([d] + ([e] + rest)));
    RunFirst(Do(Do(s, a), b), c, [d] + ([e] + rest));
    RunFirst(Do(Do(Do(s, a), b), c), d, [e] + rest);
    RunFirst(Do(Do(Do(Do(s, a), b), c), d), e, rest);
  }

  /** The claim of a due job. */
  function Claimed(s: System, m: string, owner: string, now: real, lease: real): Lease<()>
    requires m in s.jobs
  {
    Lease(m, ClaimWrites(s.jobs[m], s.jobs[m], owner, now, lease))
  }

  /** Worker `w` is idle and the job of an undecided reserve operation is due, with an attempt left. */
  predicate Ready(s: System, w: nat, id: string, m: string, now: real)
  {
    && At(s, w) == Idle && id in s.ops && m in s.jobs && s.jobs[m].aggregate == id
    && s.jobs[m].status == Pending && s.jobs[m].nextAttemptAt <= now && s.jobs[m].attempt < s.jobs[m].maxAttempts
    && s.ops[id].command.ReserveItem? && s.ops[id].status != OpSucceeded
  }

  /** The worker waits for the answer to its query, under its lease. */
  predicate Waits(s: System, w: nat, id: string, m: string, op: Operation, c: Lease<()>, now: real)
  {
    && id in s.ops && s.ops[id] == op && c.id == m && c.row.aggregate == id && Owned(s.jobs, c, now) && s.jobs[m] == c.row
    && At(s, w) == Querying(c, op) && QueryCall(id, op.user) in s.calls
  }

  lemma ClaimsAndQueries(s: System, w: nat, id: string, m: string, owner: string, now: real, lease: real)
    requires Ready(s, w, id, m, now) && lease > 0.0
    ensures var rows := [(m, s.jobs[m])];
      var s3 := Do(Do(Do(s, Poll(w, rows, now)), TryJob(w, owner, now, lease)), Load(w));
      Waits(s3, w, id, m, s.ops[id], Claimed(s, m, owner, now, lease), now) && s3.store == s.store && s3.replies == s.replies
  {
    var rows := [(m, s.jobs[m])];
    var s1 := Do(s, Poll(w, rows, now));
    assert At(s1, w) == Polling(rows) && s1.jobs == s.jobs;
    var s2 := Do(s1, TryJob(w, owner, now, lease));
    assert At(s2, w) == Loading(Claimed(s, m, owner, now, lease));
  }

  /** A delivered call is answered as the store answers it; workers and tables are as they were. */
  lemma Answers(s: System, call: Call)
    requires call in s.calls
    ensures var s' := Do(s, Deliver(call)); var (store, reply) := Perform(s.store, call);
      s' == s.(store := store, replies := s.replies + {(call, reply)})
  {}

  lemma FindsNothing(s: System, w: nat, id: string, m: string, op: Operation, c: Lease<()>, now: real)
    requires Waits(s, w, id, m, op, c, now) && op.command.ReserveItem? && id !in s.store.reservations
    ensures var call := ReserveCall(id, op.user, op.command.sku, op.command.quantity);
      var s3 := Do(Do(Do(s, Deliver(QueryCall(id, op.user))), Receive(w, NotFound)), CheckLease(w, now));
      && At(s3, w) == Calling(c, op, call) && call in s3.calls
      && s3.ops == s.ops && s3.jobs == s.jobs && s3.store == s.store
  {
    var s1 := Do(s, Deliver(QueryCall(id, op.user)));
    Answers(s, QueryCall(id, op.user));
    assert (Query(id, op), NotFound) in s1.replies;
    var s2 := Do(s1, Receive(w, NotFound));
    assert At(s2, w) == Checking(c, op, ReserveCall(id, op.user, op.command.sku, op.command.quantity));
  }

  lemma ReservesAndHears(s: System, w: nat, id: string, op: Operation, c: Lease<()>)
    requires op.command.ReserveItem? && c.row.aggregate == id && id !in s.store.reservations
    requires var call := ReserveCall(id, op.user, op.command.sku, op.command.quantity); At(s, w) == Calling(c, op, call) && call in s.calls
    requires Acceptable(op.command.quantity, id)
    requires op.command.sku in s.store.stock && s.store.stock[op.command.sku].available >= op.command.quantity
    ensures var row := Reservation(op.user, op.command.sku, op.command.quantity, Reserved, 1);
      var s2 := Do(Do(s, Deliver(ReserveCall(id, op.user, op.command.sku, op.command.quantity))), Receive(w, Receipt(id, row)));
      && At(s2, w) == Saving(c, op, row) && s2.ops == s.ops && s2.jobs == s.jobs
      && s2.store.reservations == s.store.reservations[id := row]
  {
    var call := ReserveCall(id, op.user, op.command.sku, op.command.quantity);
    var row := Reservation(op.user, op.command.sku, op.command.quantity, Reserved, 1);
    Answers(s, call);
    var s1 := Do(s, Deliver(call));
    assert (call, Receipt(id, row)) in s1.replies && At(s1, w) == Calling(c, op, call);
  }

  lemma HearsOfOne(s: System, w: nat, id: string, m: string, op: Operation, c: Lease<()>, now: real, row: Reservation)
    requires Waits(s, w, id, m, op, c, now) && op.command.ReserveItem?
    requires id in s.store.reservations && s.store.reservations[id] == row && row.status == Reserved
    requires (row.user, row.sku, row.quantity) == (op.user, op.command.sku, op.command.quantity)
    ensures var s2 := Do(Do(s, Deliver(QueryCall(id, op.user))), Receive(w, Receipt(id, row)));
      At(s2, w) == Saving(c, op, row) && s2.ops == s.ops && s2.jobs == s.jobs && s2.store == s.store
  {
    Answers(s, QueryCall(id, op.user));
    var s1 := Do(s, Deliver(QueryCall(id, op.user)));
    assert (Query(id, op), Receipt(id, row)) in s1.replies;
  }

  lemma SavesAndCloses(s: System, w: nat, id: string, m: string, op: Operation, c: Lease<()>, row: Reservation, now: real)
    requires At(s, w) == Saving(c, op, row) && c.id == m && c.row.aggregate == id && id in s.ops && Owned(s.jobs, c, now)
    ensures var s2 := Do(Do(s, Save(w, now)), Close(w, now, now));
      && id in s2.ops && s2.ops[id].status == OpSucceeded && s2.ops[id].result == Some(row)
      && m in s2.jobs && s2.jobs[m].status == Sent && At(s2, w) == Idle && s2.store == s.store
  {
    var s1 := Do(s, Save(w, now));
    assert At(s1, w) == Closing(c) && s1.jobs == s.jobs;
  }

  /**
   One undisturbed round for an operation nothing is reserved for, with stock on the shelf: the worker
   queries, reserves under its lease, and operation, job and store agree on the reservation.
   */
  lemma UndisturbedReserveSucceeds(s: System, w: nat, id: string, m: string, owner: string, now: real, lease: real)
    requires Ready(s, w, id, m, now) && lease > 0.0 && id !in s.store.reservations
    requires var command := s.ops[id].command;
      && Acceptable(command.quantity, id) && command.sku in s.store.stock && s.store.stock[command.sku].available >= command.quantity
    ensures var op := s.ops[id]; var row := Reservation(op.user, op.command.sku, op.command.quantity, Reserved, 1);
      var call := ReserveCall(id, op.user, op.command.sku, op.command.quantity);
      var end := Run(s, [Poll(w, [(m, s.jobs[m])], now)] + ([TryJob(w, owner, now, lease)] + ([Load(w)] + ([Deliver(QueryCall(id, op.user))]
        + ([Receive(w, NotFound)] + ([CheckLease(w, now)] + ([Deliver(call)] + ([Receive(w, Receipt(id, row))] + ([Save(w, now)]
        + ([Close(w, now, now)] + []))))))))));
      && id in end.ops && end.ops[id].status == OpSucceeded && end.ops[id].result == Some(row)
      && m in end.jobs && end.jobs[m].status == Sent && At(end, w) == Idle
      && end.store.reservations == s.store.reservations[id := row]
  {
    var op, c := s.ops[id], Claimed(s, m, owner, now, lease);
    var row := Reservation(op.user, op.command.sku, op.command.quantity, Reserved, 1);
    var call := ReserveCall(id, op.user, op.command.sku, op.command.quantity);
    var poll := Poll(w, [(m, s.jobs[m])], now);
    ClaimsAndQueries(s, w, id, m, owner, now, lease);
    var s3 := Do(Do(Do(s, poll), TryJob(w, owner, now, lease)), Load(w));
    FindsNothing(s3, w, id, m, op, c, now);
    var s5 := Do(Do(s3, Deliver(QueryCall(id, op.user))), Receive(w, NotFound));
    var s6 := Do(s5, CheckLease(w, now));
    ReservesAndHears(s6, w, id, op, c);
    var s8 := Do(Do(s6, Deliver(call)), Receive(w, Receipt(id, row)));
    SavesAndCloses(s8, w, id, m, op, c, row, now);
    var later := [CheckLease(w, now)] + ([Deliver(call)] + ([Receive(w, Receipt(id, row))] + ([Save(w, now)] + ([Close(w, now, now)] + []))));
    FiveSteps(s, poll, TryJob(w, owner, now, lease), Load(w), Deliver(QueryCall(id, op.user)), Receive(w, NotFound), later);
    FiveSteps(s5, CheckLease(w, now), Deliver(call), Receive(w, Receipt(id, row)), Save(w, now), Close(w, now, now), []);
  }

  /**
   And after a lost reply: when the reservation is already there, one undisturbed round reports it
   without sending any write.
   */
  lemma UndisturbedRetryOnlyQueries(s: System, w: nat, id: string, m: string, owner: string, now: real, lease: real, row: Reservation)
    requires Ready(s, w, id, m, now) && lease > 0.0
    requires id in s.store.reservations && s.store.reservations[id] == row && row.status == Reserved
    requires (row.user, row.sku, row.quantity) == (s.ops[id].user, s.ops[id].command.sku, s.ops[id].command.quantity)
    ensures var end := Run(s, [Poll(w, [(m, s.jobs[m])], now)] + ([TryJob(w, owner, now, lease)] + ([Load(w)]
        + ([Deliver(QueryCall(id, s.ops[id].user))] + ([Receive(w, Receipt(id, row))] + ([Save(w, now)] + ([Close(w, now, now)] + [])))))));
      && id in end.ops && end.ops[id].status == OpSucceeded && end.ops[id].result == Some(row)
      && m in end.jobs && end.jobs[m].status == Sent && At(end, w) == Idle && end.store == s.store
  {
    var op, c := s.ops[id], Claimed(s, m, owner, now, lease);
    var poll := Poll(w, [(m, s.jobs[m])], now);
    ClaimsAndQueries(s, w, id, m, owner, now, lease);
    var s3 := Do(Do(Do(s, poll), TryJob(w, owner, now, lease)), Load(w));
    HearsOfOne(s3, w, id, m, op, c, now, row);
    var s5 := Do(Do(s3, Deliver(QueryCall(id, op.user))), Receive(w, Receipt(id, row)));
    SavesAndCloses(s5, w, id, m, op, c, row, now);
    FiveSteps(s, poll, TryJob(w, owner, now, lease), Load(w), Deliver(QueryCall(id, op.user)), Receive(w, Receipt(id, row)),
      [Save(w, now)] + ([Close(w, now, now)] + []));
    RunFirst(s5, Save(w, now), [Close(w, now, now)] + []);
    RunFirst(Do(s5, Save(w, now)), Close(w, now, now), []);
  }
}
