/** The order service's tables and the transactions of its repositories, changed in place. */
module OrderStore {
  import opened SagaTypes
  import opened OrderDatabase
  import opened Protocol

  class OrderTables {
    var orders: map<OrderId, Order>
    var sagas: map<Uuid, SagaState>
    var byOrder: map<OrderId, Uuid>
    var processed: set<Uuid>

    constructor ()
      ensures View() == OrderDb(map[], map[], map[], {})
    {
      orders, sagas, byOrder, processed := map[], map[], map[], {};
    }

    function View(): OrderDb
      reads this
    {
      OrderDb(orders, sagas, byOrder, processed)
    }

    /** Binding validation, then the insert. */
    method CreateOrder(o: OrderId, p: ProductId, q: int, amount: Amount) returns (ok: bool)
      modifies this
      ensures ok == (o !in old(orders) && q >= 1 && amount > 0.0)
      ensures View() == if ok then old(View()).(orders := old(orders)[o := Order(p, q, amount, Pending)]) else old(View())
    {
      ok := o !in orders && q >= 1 && amount > 0.0;
      if ok {
        orders := orders[o := Order(p, q, amount, Pending)];
      }
    }

    method GetByID(o: OrderId) returns (order: Option<Order>)
      ensures order == if o in orders then Some(orders[o]) else None
    {
      if o in orders { order := Some(orders[o]); } else { order := None; }
    }

    /** Inserts a saga row; saga_id and order_id are both unique. */
    method Create(sagaId: Uuid, o: OrderId) returns (ok: bool)
      modifies this
      ensures ok == InsertSaga(old(View()), sagaId, o).Some?
      ensures View() == if ok then InsertSaga(old(View()), sagaId, o).value else old(View())
    {
      if sagaId in sagas || o in byOrder {
        return false;
      }
      sagas := sagas[sagaId := SagaState(o, ReservingInventory, InProgress, None, "")];
      byOrder := byOrder[o := sagaId];
      ok := true;
    }

    /** SELECT by status; the order of the rows is the database's choice. */
    method ListByStatus(status: SagaStatus) returns (listing: seq<Uuid>)
      ensures IsListing(View(), status, listing)
    {
      listing := [];
      var rest := set s | s in sagas && sagas[s].status == status;
      while rest != {}
        invariant forall s :: s in rest ==> s in sagas && sagas[s].status == status && s !in listing
        invariant forall s :: s in listing ==> s in sagas && sagas[s].status == status
        invariant forall s :: s in sagas && sagas[s].status == status ==> s in rest || s in listing
        invariant forall i, j :: 0 <= i < j < |listing| ==> listing[i] != listing[j]
        decreases rest
      {
        var s :| s in rest;
        listing := listing + [s];
        rest := rest - {s};
      }
    }

    method UpdateStatus(o: OrderId, status: OrderStatus)
      modifies this`orders
      ensures orders == SetStatus(old(orders), o, status)
    {
      if o in orders {
        orders := orders[o := orders[o].(status := status)];
      }
    }

    /** Records the event as processed; event_id is unique. */
    method MarkProcessed(eventId: Uuid)
      requires eventId !in processed
      modifies this`processed
      ensures processed == old(processed) + {eventId}
    {
      processed := processed + {eventId};
    }

    method CommitInventoryReserved(eventId: Uuid, e: Payload) returns (tx: Option<ReservedOutcome>)
      requires e.InventoryReservedEvent?
      modifies this
      ensures match CommitReserved(old(View()), eventId, e)
              case Rollback => tx == None && View() == old(View())
              case Commit(db, out) => tx == Some(out) && View() == db
    {
      var out := ReservedOutcome(false, false, 0.0);
      if eventId in processed {
        return Some(out.(skip := true));
      }
      if e.sagaId !in sagas {
        return None;
      }
      var state := sagas[e.sagaId];
      if state.step != ReservingInventory {
        return Some(out.(skip := true));
      }
      if !e.success {
        out := out.(failed := true);
        UpdateStatus(e.orderId, OrderFailed);
        sagas := sagas[e.sagaId := state.(step := Done, status := SagaFailed, lastEventId := Some(eventId),
                                          lastError := Truncate(e.reason))];
      } else {
        var before := orders;
        UpdateStatus(e.orderId, OrderStatus.InventoryReserved);
        if e.orderId !in orders {
          orders := before;
          return None;
        }
        out := out.(amount := orders[e.orderId].totalAmount);
        sagas := sagas[e.sagaId := state.(step := ProcessingPayment, lastEventId := Some(eventId))];
      }
      MarkProcessed(eventId);
      tx := Some(out);
    }

    method CommitPaymentProcessed(eventId: Uuid, e: Payload) returns (tx: Option<PaymentOutcome>)
      requires e.PaymentProcessedEvent?
      modifies this
      ensures match CommitPayment(old(View()), eventId, e)
              case Rollback => tx == None && View() == old(View())
              case Commit(db, out) => tx == Some(out) && View() == db
    {
      var out := PaymentOutcome(false, false, 0, 0);
      if eventId in processed {
        return Some(out.(skip := true));
      }
      if e.sagaId !in sagas {
        return None;
      }
      var state := sagas[e.sagaId];
      if state.step != ProcessingPayment {
        return Some(out.(skip := true));
      }
      if !e.success {
        out := out.(compensate := true);
        if e.orderId !in orders {
          return None;
        }
        out := out.(productId := orders[e.orderId].productId, quantity := orders[e.orderId].quantity);
        UpdateStatus(e.orderId, OrderFailed);
        sagas := sagas[e.sagaId := state.(step := ReleasingInventory, status := Compensating,
                                          lastEventId := Some(eventId), lastError := Truncate(e.reason))];
      } else {
        UpdateStatus(e.orderId, Confirmed);
        sagas := sagas[e.sagaId := state.(step := Done, status := Completed, lastEventId := Some(eventId))];
      }
      MarkProcessed(eventId);
      tx := Some(out);
    }

    method CommitInventoryReleased(eventId: Uuid, e: Payload) returns (tx: Option<ReleasedOutcome>)
      requires e.InventoryReleasedEvent?
      modifies this
      ensures match CommitReleased(old(View()), eventId, e)
              case Rollback => tx == None && View() == old(View())
              case Commit(db, out) => tx == Some(out) && View() == db
    {
      var out := ReleasedOutcome(false, false);
      if eventId in processed {
        return Some(out.(skip := true));
      }
      if e.sagaId !in sagas {
        return None;
      }
      var state := sagas[e.sagaId];
      if state.status != Compensating || state.step != ReleasingInventory {
        return Some(out.(skip := true));
      }
      if e.success {
        UpdateStatus(e.orderId, OrderCompensated);
        sagas := sagas[e.sagaId := state.(step := Done, status := SagaCompensated, lastEventId := Some(eventId))];
      } else {
        out := out.(failed := true);
        sagas := sagas[e.sagaId := state.(step := Done, status := SagaFailed, lastEventId := Some(eventId),
                                          lastError := Truncate(COMPENSATION_FAILED + e.reason))];
      }
      MarkProcessed(eventId);
      tx := Some(out);
    }
  }
}

/** The inventory service's tables and the transactions of its repositories. */
module InventoryStore {
  import opened SagaTypes
  import opened InventoryDatabase

  /** What an UPDATE-and-log transaction returns: the rows affected, or the error of the log insert. */
  datatype Affected = Rows(n: nat) | TxError

  class InventoryTables {
    var rows: map<ProductId, Inventory>
    var logs: seq<InventoryLog>

    constructor ()
      ensures View() == InventoryDb(map[], [])
    {
      rows, logs := map[], [];
    }

    function View(): InventoryDb
      reads this
    {
      InventoryDb(rows, logs)
    }

    method Create(p: ProductId, qty: int) returns (ok: bool)
      modifies this
      ensures ok == (p !in old(rows))
      ensures View() == if ok then old(View()).(rows := old(rows)[p := Inventory(qty, 0, 0)]) else old(View())
    {
      ok := p !in rows;
      if ok {
        rows := rows[p := Inventory(qty, 0, 0)];
      }
    }

    method GetByProductID(p: ProductId) returns (row: Option<Inventory>)
      ensures row == if p in rows then Some(rows[p]) else None
    {
      if p in rows { row := Some(rows[p]); } else { row := None; }
    }

    /** Overwrites the available quantity; reserved quantity and version stay. */
    method UpdateAvailableQty(p: ProductId, qty: int) returns (ok: bool)
      modifies this
      ensures ok == (p in old(rows))
      ensures View() == if ok then old(View()).(rows := old(rows)[p := old(rows)[p].(available := qty)]) else old(View())
    {
      ok := p in rows;
      if ok {
        rows := rows[p := rows[p].(available := qty)];
      }
    }

    method ExistsReserve(o: OrderId) returns (found: bool)
      ensures found <==> exists i :: 0 <= i < |logs| && logs[i].orderId == o && logs[i].action == Reserve
    {
      found := HasLog(logs, o, Reserve);
    }

    method ExistsRelease(o: OrderId) returns (found: bool)
      ensures found <==> exists i :: 0 <= i < |logs| && logs[i].orderId == o && logs[i].action == Release
    {
      found := HasLog(logs, o, Release);
    }

    /** Inserts a log entry; (order_id, action) is unique. */
    method InsertLog(e: InventoryLog) returns (ok: bool)
      modifies this`logs
      ensures ok == !HasLog(old(logs), e.orderId, e.action)
      ensures logs == if ok then old(logs) + [e] else old(logs)
    {
      ok := !HasLog(logs, e.orderId, e.action);
      if ok {
        logs := logs + [e];
      }
    }

    method ReserveAtomic(p: ProductId, o: OrderId, expectedVersion: int, qty: int) returns (res: Affected)
      modifies this
      ensures match ReserveTx(old(View()), p, o, expectedVersion, qty)
              case NoRow => res == Rows(0) && View() == old(View())
              case DuplicateLog => res == TxError && View() == old(View())
              case Applied(db) => res == Rows(1) && View() == db
    {
      if p !in rows || rows[p].version != expectedVersion || rows[p].available < qty {
        return Rows(0);
      }
      var before := rows;
      rows := rows[p := Inventory(rows[p].available - qty, rows[p].reserved + qty, rows[p].version + 1)];
      var inserted := InsertLog(InventoryLog(p, o, Reserve, qty));
      if !inserted {
        rows := before;
        return TxError;
      }
      res := Rows(1);
    }

    method ReleaseAtomic(p: ProductId, o: OrderId, qty: int) returns (res: Affected)
      modifies this
      ensures match ReleaseTx(old(View()), p, o, qty)
              case NoRow => res == Rows(0) && View() == old(View())
              case DuplicateLog => res == TxError && View() == old(View())
              case Applied(db) => res == Rows(1) && View() == db
    {
      if p !in rows {
        return Rows(0);
      }
      var before := rows;
      rows := rows[p := Inventory(rows[p].available + qty, Greatest(rows[p].reserved - qty, 0), rows[p].version + 1)];
      var inserted := InsertLog(InventoryLog(p, o, Release, qty));
      if !inserted {
        rows := before;
        return TxError;
      }
      res := Rows(1);
    }
  }
}

/** The payment service's tables and the transactions of its repositories. */
module PaymentStore {
  import opened SagaTypes
  import opened PaymentDatabase

  class PaymentTables {
    var payments: map<OrderId, Payment>
    var processed: set<Uuid>

    constructor ()
      ensures View() == PaymentDb(map[], {})
    {
      payments, processed := map[], {};
    }

    function View(): PaymentDb
      reads this
    {
      PaymentDb(payments, processed)
    }

    method IsProcessed(eventId: Uuid) returns (done: bool)
      ensures done == (eventId in processed)
    {
      done := eventId in processed;
    }

    method GetByOrderID(o: OrderId) returns (row: Option<Payment>)
      ensures row == if o in payments then Some(payments[o]) else None
    {
      if o in payments { row := Some(payments[o]); } else { row := None; }
    }

    method Create(o: OrderId, row: Payment) returns (ok: bool)
      modifies this`payments
      ensures ok == (o !in old(payments))
      ensures payments == if ok then old(payments)[o := row] else old(payments)
    {
      ok := o !in payments;
      if ok {
        payments := payments[o := row];
      }
    }

    /** Inserts eventId into processed_events; event_id is unique. */
    method MarkProcessed(eventId: Uuid) returns (ok: bool)
      modifies this`processed
      ensures ok == (eventId !in old(processed))
      ensures processed == old(processed) + {eventId}
    {
      ok := eventId !in processed;
      processed := processed + {eventId};
    }

    method CreatePaymentWithEvent(o: OrderId, row: Payment, eventId: Uuid) returns (ok: bool)
      modifies this
      ensures ok == InsertPaymentTx(old(View()), o, row, eventId).Some?
      ensures View() == if ok then InsertPaymentTx(old(View()), o, row, eventId).value else old(View())
    {
      var before := payments;
      ok := Create(o, row);
      if !ok {
        return;
      }
      ok := MarkProcessed(eventId);
      if !ok {
        payments := before;
      }
    }
  }
}

/** Everything ever published.  Publishing makes up to three attempts under one message id. */
module Network {
  import opened SagaTypes

  /** One attempt: whether the message reached the broker, and whether the confirm came back. */
  datatype Attempt = Acked | AckLost | NotSent

  const PUBLISH_ATTEMPTS := 3

  /** Some attempt within the limit brings the message to the broker. */
  predicate Arrives(attempts: nat -> Attempt) {
    exists i | 1 <= i <= PUBLISH_ATTEMPTS :: attempts(i) != NotSent
  }

  predicate Acknowledged(attempts: nat -> Attempt) {
    exists i | 1 <= i <= PUBLISH_ATTEMPTS :: attempts(i) == Acked
  }

  class Publisher {
    var net: set<Message>
    var nextId: Uuid

    constructor ()
      ensures net == {} && nextId == 0
    {
      net, nextId := {}, 0;
    }

    method NewUUID() returns (id: Uuid)
      modifies this`nextId
      ensures id == old(nextId) && nextId == old(nextId) + 1
    {
      id := nextId;
      nextId := nextId + 1;
    }

    /** Success means that the message is on the network; failure does not mean that it is not.  The id
        of a message that never arrives is not counted as used. */
    method Publish(body: Payload, attempts: nat -> Attempt) returns (ok: bool, arrived: bool)
      modifies this
      ensures ok == Acknowledged(attempts) && arrived == Arrives(attempts) && (ok ==> arrived)
      ensures ok <==> attempts(1) == Acked || attempts(2) == Acked || attempts(3) == Acked
      ensures arrived <==> attempts(1) != NotSent || attempts(2) != NotSent || attempts(3) != NotSent
      ensures net == if arrived then old(net) + {Message(old(nextId), body)} else old(net)
      ensures nextId == if arrived then old(nextId) + 1 else old(nextId)
    {
      var messageId := nextId;
      arrived, ok := false, false;
      var attempt := 1;
      while attempt <= PUBLISH_ATTEMPTS && !ok
        invariant 1 <= attempt <= PUBLISH_ATTEMPTS + 1
        invariant ok <==> exists i :: 1 <= i < attempt && attempts(i) == Acked
        invariant arrived <==> exists i :: 1 <= i < attempt && attempts(i) != NotSent
        invariant net == if arrived then old(net) + {Message(messageId, body)} else old(net)
        invariant nextId == messageId
      {
        if attempts(attempt) != NotSent {
          arrived := true;
          net := net + {Message(messageId, body)};
        }
        ok := attempts(attempt) == Acked;
        attempt := attempt + 1;
      }
      if arrived {
        nextId := nextId + 1;
      }
    }
  }
}
