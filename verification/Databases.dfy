/** The three databases as values, one function per transaction.  A transaction either commits as a
    whole or rolls back; a unique key that is already taken rolls it back. */
module OrderDatabase {
  import opened SagaTypes

  /** orders, saga_states with its unique index on order_id, and processed_events. */
  datatype OrderDb = OrderDb(
    orders: map<OrderId, Order>,
    sagas: map<Uuid, SagaState>,
    byOrder: map<OrderId, Uuid>,
    processed: set<Uuid>)

  datatype ReservedOutcome = ReservedOutcome(skip: bool, failed: bool, amount: Amount)
  datatype PaymentOutcome = PaymentOutcome(skip: bool, compensate: bool, productId: ProductId, quantity: int)
  datatype ReleasedOutcome = ReleasedOutcome(skip: bool, failed: bool)

  /** Result of a transaction: the new database and what the caller learns, or an error. */
  datatype Tx<+Out> = Rollback | Commit(db: OrderDb, out: Out)

  /** UPDATE orders SET status = ... WHERE id = ...; no row, no effect. */
  function SetStatus(orders: map<OrderId, Order>, o: OrderId, status: OrderStatus): map<OrderId, Order> {
    if o in orders then orders[o := orders[o].(status := status)] else orders
  }

  function InsertSaga(db: OrderDb, sagaId: Uuid, o: OrderId): Option<OrderDb> {
    if sagaId in db.sagas || o in db.byOrder then None
    else Some(db.(sagas := db.sagas[sagaId := SagaState(o, ReservingInventory, InProgress, None, "")],
                  byOrder := db.byOrder[o := sagaId]))
  }

  function CommitReserved(db: OrderDb, eventId: Uuid, e: Payload): Tx<ReservedOutcome>
    requires e.InventoryReservedEvent?
  {
    if eventId in db.processed then Commit(db, ReservedOutcome(true, false, 0.0))
    else if e.sagaId !in db.sagas then Rollback
    else
      var g := db.sagas[e.sagaId];
      if g.step != ReservingInventory then Commit(db, ReservedOutcome(true, false, 0.0))
      else if !e.success then
        Commit(OrderDb(SetStatus(db.orders, e.orderId, OrderFailed),
                       db.sagas[e.sagaId := SagaState(g.orderId, Done, SagaFailed, Some(eventId), Truncate(e.reason))],
                       db.byOrder, db.processed + {eventId}),
               ReservedOutcome(false, true, 0.0))
      else if e.orderId !in db.orders then Rollback
      else
        Commit(OrderDb(SetStatus(db.orders, e.orderId, OrderStatus.InventoryReserved),
                       db.sagas[e.sagaId := g.(step := ProcessingPayment, lastEventId := Some(eventId))],
                       db.byOrder, db.processed + {eventId}),
               ReservedOutcome(false, false, db.orders[e.orderId].totalAmount))
  }

  function CommitPayment(db: OrderDb, eventId: Uuid, e: Payload): Tx<PaymentOutcome>
    requires e.PaymentProcessedEvent?
  {
    if eventId in db.processed then Commit(db, PaymentOutcome(true, false, 0, 0))
    else if e.sagaId !in db.sagas then Rollback
    else
      var g := db.sagas[e.sagaId];
      if g.step != ProcessingPayment then Commit(db, PaymentOutcome(true, false, 0, 0))
      else if !e.success then
        if e.orderId !in db.orders then Rollback
        else
          Commit(OrderDb(SetStatus(db.orders, e.orderId, OrderFailed),
                         db.sagas[e.sagaId := SagaState(g.orderId, ReleasingInventory, Compensating, Some(eventId),
                                                        Truncate(e.reason))],
                         db.byOrder, db.processed + {eventId}),
                 PaymentOutcome(false, true, db.orders[e.orderId].productId, db.orders[e.orderId].quantity))
      else
        Commit(OrderDb(SetStatus(db.orders, e.orderId, Confirmed),
                       db.sagas[e.sagaId := g.(step := Done, status := Completed, lastEventId := Some(eventId))],
                       db.byOrder, db.processed + {eventId}),
               PaymentOutcome(false, false, 0, 0))
  }

  function CommitReleased(db: OrderDb, eventId: Uuid, e: Payload): Tx<ReleasedOutcome>
    requires e.InventoryReleasedEvent?
  {
    if eventId in db.processed then Commit(db, ReleasedOutcome(true, false))
    else if e.sagaId !in db.sagas then Rollback
    else
      var g := db.sagas[e.sagaId];
      if g.status != Compensating || g.step != ReleasingInventory then Commit(db, ReleasedOutcome(true, false))
      else if e.success then
        Commit(OrderDb(SetStatus(db.orders, e.orderId, OrderCompensated),
                       db.sagas[e.sagaId := g.(step := Done, status := SagaCompensated, lastEventId := Some(eventId))],
                       db.byOrder, db.processed + {eventId}),
               ReleasedOutcome(false, false))
      else
        Commit(OrderDb(db.orders,
                       db.sagas[e.sagaId := SagaState(g.orderId, Done, SagaFailed, Some(eventId),
                                                      Truncate(COMPENSATION_FAILED + e.reason))],
                       db.byOrder, db.processed + {eventId}),
               ReleasedOutcome(false, true))
  }
}

module InventoryDatabase {
  import opened SagaTypes

  /** inventories (unique product_id) and the append-only inventory_logs (unique order_id, action). */
  datatype InventoryDb = InventoryDb(rows: map<ProductId, Inventory>, logs: seq<InventoryLog>)

  predicate HasLog(logs: seq<InventoryLog>, o: OrderId, action: LogAction) {
    exists e | e in logs :: e.orderId == o && e.action == action
  }

  /** Zero rows touched, a duplicate log that rolls everything back, or a commit. */
  datatype StockTx = NoRow | DuplicateLog | Applied(db: InventoryDb)

  function ReserveTx(db: InventoryDb, p: ProductId, o: OrderId, expectedVersion: int, q: int): StockTx {
    if p !in db.rows || db.rows[p].version != expectedVersion || db.rows[p].available < q then NoRow
    else if HasLog(db.logs, o, Reserve) then DuplicateLog
    else
      var r := db.rows[p];
      Applied(InventoryDb(db.rows[p := Inventory(r.available - q, r.reserved + q, r.version + 1)],
                          db.logs + [InventoryLog(p, o, Reserve, q)]))
  }

  /** What a reserve that goes through leaves behind. */
  function Taken(inv: InventoryDb, c: Payload): InventoryDb
    requires c.ReserveInventoryCmd? && c.productId in inv.rows
  {
    var r := inv.rows[c.productId];
    InventoryDb(inv.rows[c.productId := Inventory(r.available - c.quantity, r.reserved + c.quantity, r.version + 1)],
                inv.logs + [InventoryLog(c.productId, c.orderId, Reserve, c.quantity)])
  }

  function Greatest(a: int, b: int): int { if a >= b then a else b }

  function ReleaseTx(db: InventoryDb, p: ProductId, o: OrderId, q: int): StockTx {
    if p !in db.rows then NoRow
    else if HasLog(db.logs, o, Release) then DuplicateLog
    else
      var r := db.rows[p];
      Applied(InventoryDb(db.rows[p := Inventory(r.available + q, Greatest(r.reserved - q, 0), r.version + 1)],
                          db.logs + [InventoryLog(p, o, Release, q)]))
  }

  lemma HasLogAppend(logs: seq<InventoryLog>, e: InventoryLog, o: OrderId, action: LogAction)
    ensures HasLog(logs + [e], o, action) <==> HasLog(logs, o, action) || (e.orderId == o && e.action == action)
  {
    assert e in logs + [e];
    forall x | x in logs ensures x in logs + [e] {
    }
  }
}

module PaymentDatabase {
  import opened SagaTypes

  /** payments (unique order_id) and the payment service's own processed_events. */
  datatype PaymentDb = PaymentDb(payments: map<OrderId, Payment>, processed: set<Uuid>)

  /** Inserts the payment row and the processed mark together. */
  function InsertPaymentTx(db: PaymentDb, o: OrderId, row: Payment, eventId: Uuid): Option<PaymentDb> {
    if o in db.payments || eventId in db.processed then None
    else Some(PaymentDb(db.payments[o := row], db.processed + {eventId}))
  }
}
