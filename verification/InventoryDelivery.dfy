/**
 Confirmed inventory commands, app/platform/connector_delivery.py: operations, their durable jobs,
 any number of workers that query the stable key before they act, an unreliable connection to the
 reservation store, and other clients of that store.
 */
module InventoryDelivery {
  import opened Wrappers
  import opened LeaseQueues
  import opened Inventory

  datatype Command = ReserveItem(sku: string, quantity: int) | ReleaseItem(reservation: string)

  datatype OpStatus = OpPending | OpUnknown | OpNeedsReconciliation | OpSucceeded

  datatype Operation = Operation(user: string, command: Command, status: OpStatus, result: Option<Reservation>, error: string)

  datatype Call =
    | QueryCall(key: string, user: string)
    | ReserveCall(key: string, user: string, sku: string, quantity: int)
    | ReleaseCall(key: string, user: string)

  datatype Reply = Receipt(key: string, row: Reservation) | NotFound | Refused

  /** Program counters of `run_once`, with the local variables that are live there. */
  datatype Worker =
    | Idle
    | Polling(rows: seq<(string, Row<()>)>)
    | Sweeping
    | Loading(claim: Lease<()>)
    | Querying(claim: Lease<()>, op: Operation)
    | Checking(claim: Lease<()>, op: Operation, call: Call)
    | Calling(claim: Lease<()>, op: Operation, call: Call)
    | Saving(claim: Lease<()>, op: Operation, receipt: Reservation)
    | Closing(claim: Lease<()>)
    | Failing(claim: Lease<()>, code: string)
    | ClosingFailed(claim: Lease<()>, code: string)

  datatype System = System(
    ops: map<string, Operation>,
    jobs: Table<()>,
    store: Store,
    workers: map<nat, Worker>,
    calls: set<Call>,
    replies: set<(Call, Reply)>,
    grants: map<(string, nat), nat>)

  datatype Step =
    | Enqueue(id: string, message: string, user: string, command: Command, now: real)
    | Poll(worker: nat, rows: seq<(string, Row<()>)>, now: real)
    | TryJob(worker: nat, owner: string, now: real, lease: real)
    | SweepDead(worker: nat)
    | Load(worker: nat)
    | Receive(worker: nat, reply: Reply)
    | CheckLease(worker: nat, now: real)
    | Save(worker: nat, now: real)
    | Close(worker: nat, checked: real, now: real)
    | Trip(worker: nat, code: string)
    | MarkFailed(worker: nat, now: real)
    | Crash(worker: nat)
    | Deliver(call: Call)
    | Foreign(call: Call)

  function At(s: System, w: nat): Worker
  {
    if w in s.workers then s.workers[w] else Idle
  }

  function Goto(s: System, w: nat, next: Worker): System
  {
    s.(workers := s.workers[w := next])
  }

  /** A reservation is stored under the operation that asked for it. */
  function KeyOf(id: string, op: Operation): string
  {
    match op.command
    case ReserveItem(_, _) => id
    case ReleaseItem(k) => k
  }

  function Query(id: string, op: Operation): Call
  {
    QueryCall(KeyOf(id, op), op.user)
  }

  /** The write that follows a query, if its answer calls for one. */
  function NextCall(id: string, op: Operation, reply: Reply): Option<Call>
  {
    match op.command
    case ReserveItem(sku, quantity) => if reply.NotFound? then Some(ReserveCall(id, op.user, sku, quantity)) else None
    case ReleaseItem(k) => if reply.Receipt? && reply.row.status == Reserved then Some(ReleaseCall(k, op.user)) else None
  }

  /** All fields of the receipt that the worker compares before it reports success. */
  predicate Verified(id: string, op: Operation, reply: Reply)
  {
    && reply.Receipt? && reply.key == KeyOf(id, op) && reply.row.user == op.user
    && match op.command
       case ReserveItem(sku, quantity) => reply.row.status == Reserved && reply.row.sku == sku && reply.row.quantity == quantity
       case ReleaseItem(_) => reply.row.status == Released
  }

  function Perform(s: Store, call: Call): (Store, Reply)
  {
    match call
    case QueryCall(key, user) =>
      (s, match StatusOf(s, key, user) case Some(r) => Receipt(key, r) case None => NotFound)
    case ReserveCall(key, user, sku, quantity) =>
      if !Acceptable(quantity, key) then (s, Refused)
      else
        var (s', r) := ReserveTx(s, sku, quantity, key, user);
        (s', if r.Ok? then Receipt(key, r.value) else Refused)
    case ReleaseCall(key, user) =>
      var (s', r) := ReleaseTx(s, key, user);
      (s', if r.Ok? then Receipt(key, r.value) else Refused)
  }

  /** A release names a reserve operation of the same user that has succeeded. */
  predicate Releasable(s: System, user: string, command: Command)
  {
    command.ReleaseItem? ==>
      && command.reservation in s.ops && s.ops[command.reservation].user == user
      && s.ops[command.reservation].command.ReserveItem? && s.ops[command.reservation].status == OpSucceeded
  }

  function TryStep(s: System, w: nat, owner: string, now: real, lease: real): System
  {
    if !At(s, w).Polling? then s
    else if At(s, w).rows == [] then Goto(s, w, Sweeping)
    else
      var (id, stale) := At(s, w).rows[0];
      var (jobs, claim) := TryClaim(s.jobs, id, stale, owner, now, lease);
      match claim
      case Some(c) => Goto(s.(jobs := jobs), w, Loading(c)).(grants := s.grants[(id, c.row.fence) := w])
      case None => Goto(s.(jobs := jobs), w, Polling(At(s, w).rows[1..]))
  }

  predicate IsDead(jobs: Table<()>, id: string)
  {
    exists m :: m in jobs && jobs[m].aggregate == id && jobs[m].status == Dead
  }

  function Swept(op: Operation, dead: bool): Operation
  {
    if dead && op.status in {OpPending, OpUnknown} then op.(status := OpNeedsReconciliation, error := "ATTEMPTS_EXHAUSTED") else op
  }

  function LoadStep(s: System, w: nat): System
  {
    if !At(s, w).Loading? then s
    else
      var claim := At(s, w).claim;
      var id := claim.row.aggregate;
      if id !in s.ops then Goto(s, w, Failing(claim, "CONNECTOR_RESULT_UNKNOWN"))
      else if s.ops[id].status == OpSucceeded then Goto(s, w, Closing(claim))
      else Goto(s, w, Querying(claim, s.ops[id])).(calls := s.calls + {Query(id, s.ops[id])})
  }

  function Judge(claim: Lease<()>, op: Operation, reply: Reply): Worker
  {
    if Verified(claim.row.aggregate, op, reply) then Saving(claim, op, reply.row) else Failing(claim, "CONNECTOR_RESULT_UNKNOWN")
  }

  /** Where a worker goes with a reply; it keeps waiting for anything but an answer to its own call. */
  function Received(worker: Worker, replies: set<(Call, Reply)>, reply: Reply): Worker
  {
    match worker
    case Querying(claim, op) =>
      var id := claim.row.aggregate;
      if (Query(id, op), reply) !in replies then worker
      else if NextCall(id, op, reply).Some? then Checking(claim, op, NextCall(id, op, reply).value)
      else Judge(claim, op, reply)
    case Calling(claim, op, call) => if (call, reply) !in replies then worker else Judge(claim, op, reply)
    case _ => worker
  }

  function ReceiveStep(s: System, w: nat, reply: Reply): System
  {
    Goto(s, w, Received(At(s, w), s.replies, reply))
  }

  function SaveStep(s: System, w: nat, now: real): System
  {
    if !At(s, w).Saving? then s
    else
      var worker := At(s, w);
      var id := worker.claim.row.aggregate;
      if !Owned(s.jobs, worker.claim, now) then Goto(s, w, Idle)
      else if id !in s.ops then Goto(s, w, Closing(worker.claim))
      else Goto(s.(ops := s.ops[id := s.ops[id].(status := OpSucceeded, result := Some(worker.receipt), error := "")]),
                w, Closing(worker.claim))
  }

  function FailedOp(op: Operation, claim: Lease<()>, code: string): Operation
  {
    if op.status == OpSucceeded then op
    else op.(status := if claim.row.attempt >= claim.row.maxAttempts then OpNeedsReconciliation else OpUnknown, error := code)
  }

  function MarkFailedStep(s: System, w: nat, now: real): System
  {
    if !At(s, w).Failing? then s
    else
      var claim, code := At(s, w).claim, At(s, w).code;
      var id := claim.row.aggregate;
      if !Owned(s.jobs, claim, now) then Goto(s, w, Idle)
      else if id !in s.ops then Goto(s, w, ClosingFailed(claim, code))
      else Goto(s.(ops := s.ops[id := FailedOp(s.ops[id], claim, code)]), w, ClosingFailed(claim, code))
  }

  function EnqueueStep(s: System, id: string, message: string, user: string, command: Command, now: real): System
  {
    if id in s.ops || message in s.jobs || !Releasable(s, user, command) then s
    else s.(ops := s.ops[id := Operation(user, command, OpPending, None, "")],
            jobs := s.jobs[message := NewRow(id, (), now, 8, 0.0)])
  }

  predicate Polled(jobs: Table<()>, rows: seq<(string, Row<()>)>, now: real)
  {
    forall i :: 0 <= i < |rows| ==> rows[i].0 in jobs && jobs[rows[i].0] == rows[i].1 && Eligible(rows[i].1, now)
  }

  /** An idle poll moves every operation whose job has died to manual reconciliation. */
  function SweepStep(s: System, w: nat): System
  {
    if !At(s, w).Sweeping? then s
    else Goto(s.(ops := map id | id in s.ops :: Swept(s.ops[id], IsDead(s.jobs, id))), w, Idle)
  }

  /** The lease is checked once more before the write is sent. */
  function CheckStep(s: System, w: nat, now: real): System
  {
    if !At(s, w).Checking? then s
    else if !Owned(s.jobs, At(s, w).claim, now) then Goto(s, w, Idle)
    else Goto(s, w, Calling(At(s, w).claim, At(s, w).op, At(s, w).call)).(calls := s.calls + {At(s, w).call})
  }

  function CloseStep(s: System, w: nat, checked: real, now: real): System
  {
    match At(s, w)
    case Closing(claim) => Goto(s.(jobs := FinishLease(s.jobs, claim, "", None, checked, now).0), w, Idle)
    case ClosingFailed(claim, code) => Goto(s.(jobs := FinishLease(s.jobs, claim, code, None, checked, now).0), w, Idle)
    case _ => s
  }

  /** Any exception: timeouts, refused or lost calls, a changed contract, a malformed reply. */
  function Tripped(worker: Worker, code: string): Worker
  {
    if code == "" then worker
    else if worker.Loading? || worker.Querying? || worker.Checking? || worker.Calling? then Failing(worker.claim, code)
    else worker
  }

  function TripStep(s: System, w: nat, code: string): System
  {
    Goto(s, w, Tripped(At(s, w), code))
  }

  /** A sent call reaches the store, possibly late and more than once. */
  function DeliverStep(s: System, call: Call): System
  {
    if call !in s.calls then s
    else s.(store := Perform(s.store, call).0, replies := s.replies + {(call, Perform(s.store, call).1)})
  }

  function Do(s: System, step: Step): System
  {
    match step
    case Enqueue(id, message, user, command, now) => EnqueueStep(s, id, message, user, command, now)
    case Poll(w, rows, now) => if At(s, w).Idle? && Polled(s.jobs, rows, now) then Goto(s, w, Polling(rows)) else s
    case TryJob(w, owner, now, lease) => TryStep(s, w, owner, now, lease)
    case SweepDead(w) => SweepStep(s, w)
    case Load(w) => LoadStep(s, w)
    case Receive(w, reply) => ReceiveStep(s, w, reply)
    case CheckLease(w, now) => CheckStep(s, w, now)
    case Save(w, now) => SaveStep(s, w, now)
    case Close(w, checked, now) => CloseStep(s, w, checked, now)
    case Trip(w, code) => TripStep(s, w, code)
    case MarkFailed(w, now) => MarkFailedStep(s, w, now)
    case Crash(w) => Goto(s, w, Idle)
    case Deliver(call) => DeliverStep(s, call)
    case Foreign(call) => s.(store := Perform(s.store, call).0)
  }

  function Run(s: System, steps: seq<Step>): System
    decreases |steps|
  {
    if steps == [] then s else Run(Do(s, steps[0]), steps[1..])
  }

  /** Nothing asked for yet; the shelves may hold anything. */
  predicate Initial(s: System)
  {
    && s.ops == map[] && s.jobs == map[] && s.workers == map[] && s.calls == {} && s.replies == {} && s.grants == map[]
    && s.store.reservations == map[] && forall sku :: sku in s.store.stock ==> 0 <= s.store.stock[sku].available
  }
}
