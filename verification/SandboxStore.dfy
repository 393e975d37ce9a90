/**
 The provider side of a refund (app/sandbox/store.py): its own database, its own faults. It
 accepts a command once per idempotency key and once per order, settles delayed refunds from a
 stale poll with a version check, and records every receipt it issues as a callback event.
 */
module SandboxStores {
  import opened Wrappers
  import opened RefundTables

  const PROVIDER := "commerce-sandbox"

  datatype Order = Order(ownerId: string, amountCents: int)

  datatype FaultMode = Normal | TimeoutAfterCommit | DisconnectAfterCommit | DelayedSuccess | Reject

  datatype Fault = Fault(mode: FaultMode, delaySeconds: real, dropCallback: bool)

  const NO_FAULT := Fault(Normal, 1.0, false)

  /** `receipt` is the stored payload. */
  datatype Refund = Refund(command: Command, status: ReceiptStatus, version: nat, readyAt: real, receipt: Receipt, fault: Fault)

  /** A callback event; a dropped one is never delivered. */
  datatype Event = Event(receipt: Receipt, dropped: bool)

  datatype Store = Store(
    orders: map<string, Order>,
    faults: map<string, Fault>,
    refunds: map<string, Refund>,
    events: map<string, Event>)

  datatype SandboxError = IdempotencyConflict | OrderNotFound | OrderAlreadyRefunded | SandboxBusy

  predicate Collides(row: Refund, c: Command)
  {
    row.command.orderId == c.orderId || row.command.operationId == c.operationId
  }

  /** unique(order_id) and unique(operation_id), checked by the insert. */
  predicate Taken(refunds: map<string, Refund>, c: Command)
  {
    exists k :: k in refunds && Collides(refunds[k], c)
  }

  predicate OrderTaken(refunds: map<string, Refund>, orderId: string)
  {
    exists k :: k in refunds && refunds[k].command.orderId == orderId
  }

  function FaultOf(p: Store, orderId: string): Fault
  {
    if orderId in p.faults then p.faults[orderId] else NO_FAULT
  }

  function FirstReceipt(p: Store, c: Command, refundId: string): Receipt
    requires c.orderId in p.orders
  {
    var mode := FaultOf(p, c.orderId).mode;
    Receipt(c, PROVIDER,
            if mode == DelayedSuccess then InProgress else if mode == Reject then Failed else Succeeded,
            1, refundId, p.orders[c.orderId].amountCents)
  }

  /** `refundId` and `eventId` are the fresh identifiers drawn by the store. */
  function SubmitTx(p: Store, c: Command, refundId: string, eventId: string, now: real)
    : (Store, Result<Receipt, SandboxError>)
  {
    if c.key in p.refunds then
      if p.refunds[c.key].command != c then (p, Err(IdempotencyConflict)) else (p, Ok(p.refunds[c.key].receipt))
    else if c.orderId !in p.orders || p.orders[c.orderId].ownerId != c.userId then (p, Err(OrderNotFound))
    else if OrderTaken(p.refunds, c.orderId) then (p, Err(OrderAlreadyRefunded))
    else if Taken(p.refunds, c) || eventId in p.events then (p, Err(SandboxBusy))
    else
      var fault := FaultOf(p, c.orderId);
      var r := FirstReceipt(p, c, refundId);
      (p.(refunds := p.refunds[c.key := Refund(c, r.status, 1, now + fault.delaySeconds, r, fault)],
          events := p.events[eventId := Event(r, fault.dropCallback)]),
       Ok(r))
  }

  function SettledReceipt(row: Refund): Receipt
  {
    row.receipt.(status := Succeeded, version := row.version + 1)
  }

  predicate Due(row: Refund, now: real) { row.status == InProgress && row.readyAt <= now }

  /** One conditional update of settle_due, from a row read in an earlier transaction. */
  function SettleTx(p: Store, key: string, stale: Refund, eventId: string): Store
  {
    if key !in p.refunds || p.refunds[key].version != stale.version || eventId in p.events then p
    else
      var r := SettledReceipt(stale);
      p.(refunds := p.refunds[key := p.refunds[key].(status := r.status, version := r.version, receipt := r)],
         events := p.events[eventId := Event(r, stale.fault.dropCallback)])
  }

  function GetRefund(p: Store, key: string): Option<Receipt>
  {
    if key in p.refunds then Some(p.refunds[key].receipt) else None
  }

  // ----- what the provider guarantees -----

  ghost predicate RefundOk(key: string, row: Refund)
  {
    && row.command.key == key
    && row.receipt.command == row.command
    && row.receipt.provider == PROVIDER
    && row.receipt.status == row.status
    && row.receipt.version == row.version
    && row.receipt.refundId != ""
    && (match row.fault.mode
        case DelayedSuccess => (row.status == InProgress && row.version == 1) || (row.status == Succeeded && row.version == 2)
        case Reject => row.status == Failed && row.version == 1
        case _ => row.status == Succeeded && row.version == 1)
  }

  ghost predicate OneRefundPerOrder(refunds: map<string, Refund>)
  {
    forall a, b :: a in refunds && b in refunds && a != b ==>
      && refunds[a].command.orderId != refunds[b].command.orderId
      && refunds[a].command.operationId != refunds[b].command.operationId
  }

  ghost predicate StoreOk(p: Store)
  {
    && OneRefundPerOrder(p.refunds)
    && (forall k :: k in p.refunds ==> RefundOk(k, p.refunds[k]))
  }

  /** A refund never disappears, keeps its identity, and leaves InProgress only forwards, once. */
  ghost predicate RefundEvolves(a: Refund, b: Refund)
  {
    && a.command == b.command
    && a.receipt.refundId == b.receipt.refundId
    && a.receipt.amountCents == b.receipt.amountCents
    && a.fault == b.fault
    && a.version <= b.version
    && (a.version == b.version ==> a == b)
    && (a.status != InProgress ==> a == b)
  }

  ghost predicate StoreEvolves(p: Store, p': Store)
  {
    && p'.orders == p.orders
    && (forall k :: k in p.refunds ==> k in p'.refunds && RefundEvolves(p.refunds[k], p'.refunds[k]))
    && (forall e :: e in p.events ==> e in p'.events && p'.events[e] == p.events[e])
  }

  /** A submission either changes nothing or adds one refund and its event. */
  ghost predicate Accepts(p: Store, p': Store, c: Command, r: Receipt)
  {
    && c.key !in p.refunds && !Taken(p.refunds, c)
    && c.key in p'.refunds && RefundOk(c.key, p'.refunds[c.key])
    && p'.refunds == p.refunds[c.key := p'.refunds[c.key]]
    && p'.refunds[c.key].command == c && p'.refunds[c.key].receipt == r
    && p'.orders == p.orders
    && (forall e :: e in p.events ==> e in p'.events && p'.events[e] == p.events[e])
    && (forall e :: e in p'.events && e !in p.events ==> p'.events[e].receipt == r)
  }

  lemma SubmitCases(p: Store, c: Command, refundId: string, eventId: string, now: real)
    requires StoreOk(p) && refundId != ""
    ensures var (p', r) := SubmitTx(p, c, refundId, eventId, now);
      || p' == p
      || (r.Ok? && Accepts(p, p', c, r.value))
    ensures var (p', r) := SubmitTx(p, c, refundId, eventId, now);
      r.Ok? ==> c.key in p'.refunds && p'.refunds[c.key].command == c && p'.refunds[c.key].receipt == r.value
  {}

  lemma SubmitKeeps(p: Store, c: Command, refundId: string, eventId: string, now: real)
    requires StoreOk(p) && refundId != ""
    ensures StoreOk(SubmitTx(p, c, refundId, eventId, now).0)
    ensures StoreEvolves(p, SubmitTx(p, c, refundId, eventId, now).0)
  {
    SubmitCases(p, c, refundId, eventId, now);
    var (p', r) := SubmitTx(p, c, refundId, eventId, now);
    if p' != p {
      forall a, b | a in p'.refunds && b in p'.refunds && a != b
        ensures p'.refunds[a].command.orderId != p'.refunds[b].command.orderId
        ensures p'.refunds[a].command.operationId != p'.refunds[b].command.operationId
      {
        if a != c.key && b != c.key {
          assert a in p.refunds && b in p.refunds;
        }
      }
    }
  }

  /** A settlement moves at most the one row it was polled for, from InProgress to Succeeded. */
  lemma SettleCases(p: Store, key: string, stale: Refund, eventId: string)
    requires StoreOk(p)
    requires stale.status == InProgress
    requires key in p.refunds ==> RefundEvolves(stale, p.refunds[key])
    ensures var p' := SettleTx(p, key, stale, eventId);
      || p' == p
      || (&& key in p.refunds && key in p'.refunds && p'.refunds == p.refunds[key := p'.refunds[key]]
          && p.refunds[key].status == InProgress && p'.refunds[key].status == Succeeded
          && RefundOk(key, p'.refunds[key]) && RefundEvolves(p.refunds[key], p'.refunds[key])
          && p'.orders == p.orders
          && (forall e :: e in p.events ==> e in p'.events && p'.events[e] == p.events[e])
          && (forall e :: e in p'.events && e !in p.events ==> p'.events[e].receipt == p'.refunds[key].receipt))
  {
    if key in p.refunds { assert RefundOk(key, p.refunds[key]); }
  }

  lemma SettleKeeps(p: Store, key: string, stale: Refund, eventId: string)
    requires StoreOk(p)
    requires stale.status == InProgress
    requires key in p.refunds ==> RefundEvolves(stale, p.refunds[key])
    ensures StoreOk(SettleTx(p, key, stale, eventId))
    ensures StoreEvolves(p, SettleTx(p, key, stale, eventId))
  {
    SettleCases(p, key, stale, eventId);
    var p' := SettleTx(p, key, stale, eventId);
    if p' != p {
      forall k | k in p'.refunds ensures k in p.refunds && p'.refunds[k].command == p.refunds[k].command {}
    }
  }

  class SandboxStore {
    var orders: map<string, Order>
    var faults: map<string, Fault>
    var refunds: map<string, Refund>
    var events: map<string, Event>

    ghost function Contents(): Store
      reads this
    {
      Store(orders, faults, refunds, events)
    }

    constructor (orders: map<string, Order>)
      ensures Contents() == Store(orders, map[], map[], map[])
    {
      this.orders := orders;
      faults, refunds, events := map[], map[], map[];
    }

    method SetFault(orderId: string, fault: Fault)
      modifies this`faults
      ensures Contents() == old(Contents()).(faults := old(faults)[orderId := fault])
    {
      faults := faults[orderId := fault];
    }

    /** Looks for a row that the unique constraints would collide with. */
    method Conflicting(c: Command) returns (order: bool, any: bool)
      ensures order == OrderTaken(refunds, c.orderId)
      ensures any == Taken(refunds, c)
    {
      order, any := false, false;
      var left := refunds.Keys;
      while left != {}
        invariant left <= refunds.Keys
        invariant order == exists k :: k in refunds && k !in left && refunds[k].command.orderId == c.orderId
        invariant any == exists k :: k in refunds && k !in left && Collides(refunds[k], c)
        decreases |left|
      {
        var k :| k in left;
        ghost var before := left;
        left := left - {k};
        assert forall x :: x in refunds && x !in left <==> x == k || (x in refunds && x !in before);
        order := order || refunds[k].command.orderId == c.orderId;
        any := any || Collides(refunds[k], c);
      }
    }

    /** Eight attempts around the insert; a taken order ends the loop, anything else retries. */
    method Submit(c: Command, refundId: string, eventId: string, now: real) returns (r: Result<Receipt, SandboxError>)
      modifies this`refunds, this`events
      ensures (Contents(), r) == SubmitTx(old(Contents()), c, refundId, eventId, now)
    {
      for attempt := 0 to 8
        invariant Contents() == old(Contents())
        invariant attempt > 0 ==> SubmitTx(old(Contents()), c, refundId, eventId, now).1 == Err(SandboxBusy)
      {
        if c.key in refunds {
          var old_ := refunds[c.key];
          if old_.command != c {
            return Err(IdempotencyConflict);
          }
          return Ok(old_.receipt);
        }
        if c.orderId !in orders || orders[c.orderId].ownerId != c.userId {
          return Err(OrderNotFound);
        }
        var fault := if c.orderId in faults then faults[c.orderId] else NO_FAULT;
        var status := Succeeded;
        if fault.mode == DelayedSuccess {
          status := InProgress;
        } else if fault.mode == Reject {
          status := Failed;
        }
        var receipt := Receipt(c, PROVIDER, status, 1, refundId, orders[c.orderId].amountCents);
        var orderTaken, anyTaken := Conflicting(c);
        if !anyTaken && eventId !in events {
          refunds := refunds[c.key := Refund(c, status, 1, now + fault.delaySeconds, receipt, fault)];
          events := events[eventId := Event(receipt, fault.dropCallback)];
          return Ok(receipt);
        }
        if orderTaken {
          return Err(OrderAlreadyRefunded);
        }
      }
      return Err(SandboxBusy);
    }

    /** Settles the rows of an earlier poll, one conditional update each. */
    method SettleDue(rows: seq<(string, Refund)>, eventIds: seq<string>)
      requires |eventIds| == |rows|
      modifies this`refunds, this`events
      ensures Contents() == SettleAll(old(Contents()), rows, eventIds)
    {
      var i := 0;
      while i < |rows|
        invariant 0 <= i <= |rows|
        invariant SettleAll(old(Contents()), rows, eventIds) == SettleAll(Contents(), rows[i..], eventIds[i..])
      {
        var (key, stale) := rows[i];
        if key in refunds && refunds[key].version == stale.version && eventIds[i] !in events {
          var receipt := stale.receipt.(status := Succeeded, version := stale.version + 1);
          refunds := refunds[key := refunds[key].(status := receipt.status, version := receipt.version, receipt := receipt)];
          events := events[eventIds[i] := Event(receipt, stale.fault.dropCallback)];
        }
        assert rows[i..][1..] == rows[i + 1..] && eventIds[i..][1..] == eventIds[i + 1..];
        i := i + 1;
      }
    }
  }

  function SettleAll(p: Store, rows: seq<(string, Refund)>, eventIds: seq<string>): Store
    requires |eventIds| == |rows|
    decreases |rows|
  {
    if rows == [] then p
    else SettleAll(SettleTx(p, rows[0].0, rows[0].1, eventIds[0]), rows[1..], eventIds[1..])
  }
}
