/** The inductive invariant of the protocol, built around the abstraction of each order. */
module Invariant {
  import opened SagaTypes
  import opened OrderDatabase
  import opened InventoryDatabase
  import opened Protocol
  import opened OrderTransaction

  // ---------------------------------------------------------------- abstraction

  function Moves(w: World, s: Uuid): nat {
    if s in w.hist then |w.hist[s]| else 0
  }

  /** FAILED is one status for two ends; the number of events that moved the saga tells them apart. */
  function PhaseOf(g: SagaState, moves: nat): Phase {
    match g.step
    case ReservingInventory => Reserving
    case ProcessingPayment => Paying
    case ReleasingInventory => Releasing
    case Done =>
      (match g.status
       case Completed => PaidUp
       case SagaCompensated => OrderTransaction.Compensated
       case _ => if moves <= 1 then Rejected else ReleaseFailed)
  }

  function OrderPhase(w: World, o: OrderId): Phase {
    if o in w.db.byOrder && w.db.byOrder[o] in w.db.sagas
    then PhaseOf(w.db.sagas[w.db.byOrder[o]], Moves(w, w.db.byOrder[o]))
    else Unstarted
  }

  function StockOf(logs: seq<InventoryLog>, o: OrderId): Stock {
    if HasLog(logs, o, Release) then Returned else if HasLog(logs, o, Reserve) then Held else NotHeld
  }

  function MoneyOf(payments: map<OrderId, Payment>, o: OrderId): Money {
    if o !in payments then NoPayment else if payments[o].status == PaymentSuccess then Charged else Declined
  }

  /** The implementation state of order o, read as one atomic record. */
  function Abs(w: World, o: OrderId): Txn {
    Txn(OrderPhase(w, o), StockOf(w.inv.logs, o), MoneyOf(w.pay.payments, o))
  }

  // ---------------------------------------------------------------- invariant

  ghost predicate Indexed(db: OrderDb) {
    true == (&& (forall s :: s in db.sagas ==>
          db.sagas[s].orderId in db.orders && db.sagas[s].orderId in db.byOrder && db.byOrder[db.sagas[s].orderId] == s)
    && (forall o :: o in db.byOrder ==>
          db.byOrder[o] in db.sagas && db.sagas[db.byOrder[o]].orderId == o)
    && (forall o :: o in db.orders ==> db.orders[o].quantity >= 1))
  }

  /** The only combinations of step, saga status, order status and number of moves. */
  predicate RowOk(g: SagaState, status: OrderStatus, moves: nat) {
    match g.step
    case ReservingInventory => g.status == InProgress && status == Pending && moves == 0
    case ProcessingPayment => g.status == InProgress && status == OrderStatus.InventoryReserved && moves == 1
    case ReleasingInventory => g.status == Compensating && status == OrderFailed && moves == 2
    case Done =>
      || (g.status == Completed && status == Confirmed && moves == 2)
      || (g.status == SagaCompensated && status == OrderCompensated && moves == 3)
      || (g.status == SagaFailed && status == OrderFailed && (moves == 1 || moves == 3))
  }

  ghost predicate SagasOk(w: World) {
    true == (&& w.hist.Keys == w.db.sagas.Keys
    && (forall s :: s in w.db.sagas ==>
          s < w.nextId
          && w.db.sagas[s].orderId in w.db.orders
          && RowOk(w.db.sagas[s], w.db.orders[w.db.sagas[s].orderId].status, Moves(w, s)))
    && (forall o :: o in w.db.orders && o !in w.db.byOrder ==> w.db.orders[o].status == Pending))
  }

  /** Every log names an order, with that order's product and quantity. */
  ghost predicate LogsMatch(w: World) {
    true == (&& (forall e :: e in w.inv.logs ==>
          e.orderId in w.db.orders
          && e.productId == w.db.orders[e.orderId].productId
          && e.quantity == w.db.orders[e.orderId].quantity)
    && (forall o: OrderId :: HasLog(w.inv.logs, o, Release) ==> HasLog(w.inv.logs, o, Reserve)))
  }

  ghost predicate Linked(w: World, s: Uuid, o: OrderId) {
    true == (o in w.db.byOrder && w.db.byOrder[o] == s && o in w.db.orders)
  }

  ghost predicate SameGoods(w: World, o: OrderId, p: ProductId, q: int) {
    o in w.db.orders && w.db.orders[o].productId == p && w.db.orders[o].quantity == q
  }

  /** The durable facts behind a message.  (Equating with `true` only keeps the verifier from proving
      each case of each message kind as a separate goal.) */
  ghost predicate Backed(w: World, b: Payload) {
    true == match b
    case ReserveInventoryCmd(s, o, p, q) => Linked(w, s, o) && SameGoods(w, o, p, q)
    case InventoryReservedEvent(s, o, p, q, ok, _) =>
      Linked(w, s, o) && SameGoods(w, o, p, q) && (ok ==> !StockOf(w.inv.logs, o).NotHeld?)
    case ProcessPaymentCmd(s, o, amount) =>
      Linked(w, s, o) && amount == w.db.orders[o].totalAmount && AtLeastPaying(OrderPhase(w, o))
    case PaymentProcessedEvent(s, o, tx, ok, reason) =>
      Linked(w, s, o) && AtLeastPaying(OrderPhase(w, o)) && o in w.pay.payments
      && w.pay.payments[o].transactionId == tx && (ok <==> w.pay.payments[o].status == PaymentSuccess)
      && reason == (if ok then "" else SIMULATED_FAILURE)
    case ReleaseInventoryCmd(s, o, p, q) =>
      Linked(w, s, o) && SameGoods(w, o, p, q) && AtLeastReleasing(OrderPhase(w, o))
    case InventoryReleasedEvent(s, o, p, q, ok, _) =>
      Linked(w, s, o) && SameGoods(w, o, p, q) && AtLeastReleasing(OrderPhase(w, o))
      && (ok ==> StockOf(w.inv.logs, o).Returned?)
  }

  /** A row that recovery listed, possibly long ago. */
  ghost predicate SnapshotOk(w: World, row: SagaRow) {
    && Linked(w, row.sagaId, row.state.orderId)
    && (row.state.step == ProcessingPayment ==> AtLeastPaying(OrderPhase(w, row.state.orderId)))
    && (row.state.step == ReleasingInventory ==> AtLeastReleasing(OrderPhase(w, row.state.orderId)))
  }

  ghost predicate TaskOk(w: World, t: Task) {
    true == match t
    case Pub(body) => Backed(w, body)
    case ReserveLoop(cmd, _) => cmd.ReserveInventoryCmd? && Backed(w, cmd)
    case ReserveCas(cmd, _, _) => cmd.ReserveInventoryCmd? && Backed(w, cmd)
    case ReleaseTxn(cmd) => cmd.ReleaseInventoryCmd? && Backed(w, cmd)
    case PayLookup(cmd, _) => cmd.ProcessPaymentCmd? && Backed(w, cmd)
    case PayInsert(cmd, _) => cmd.ProcessPaymentCmd? && Backed(w, cmd)
    case Recover(todo) => forall row :: row in todo ==> SnapshotOk(w, row)
  }

  ghost predicate MessagesOk(w: World) {
    true == (&& (forall m :: m in w.net ==> Backed(w, m.body))
    && (forall wk :: wk in w.tasks ==> TaskOk(w, w.tasks[wk])))
  }

  ghost predicate OrdersOk(w: World) {
    forall o: OrderId :: TxnOk(Abs(w, o))
  }

  ghost predicate Inv(w: World) {
    true == (Indexed(w.db) && SagasOk(w) && LogsMatch(w) && OrdersOk(w) && MessagesOk(w))
  }

  // ---------------------------------------------------------------- what every step keeps

  ghost predicate SameOrder(a: Order, b: Order) {
    a.productId == b.productId && a.quantity == b.quantity && a.totalAmount == b.totalAmount
  }

  /** Durable facts only grow, and each order takes at most one atomic step. */
  ghost predicate Evolves(w: World, w': World) {
    true == (&& w.nextId <= w'.nextId
    && (forall o :: o in w.db.orders ==> o in w'.db.orders && SameOrder(w.db.orders[o], w'.db.orders[o]))
    && (forall o :: o in w.db.byOrder ==> o in w'.db.byOrder && w'.db.byOrder[o] == w.db.byOrder[o])
    && (forall o :: o in w.pay.payments ==> o in w'.pay.payments && w'.pay.payments[o] == w.pay.payments[o])
    && (forall o: OrderId :: TxnStutterOrStep(Abs(w, o), Abs(w', o))))
  }

  lemma BackedStable(w: World, w': World, b: Payload)
    requires Evolves(w, w') && Backed(w, b)
    ensures Backed(w', b)
  {
    PhaseStable(w, w', b.orderId);
  }

  /** What messages say of an order stays true. */
  lemma PhaseStable(w: World, w': World, o: OrderId)
    requires Evolves(w, w')
    ensures AtLeastPaying(OrderPhase(w, o)) ==> AtLeastPaying(OrderPhase(w', o))
    ensures AtLeastReleasing(OrderPhase(w, o)) ==> AtLeastReleasing(OrderPhase(w', o))
    ensures !StockOf(w.inv.logs, o).NotHeld? ==> !StockOf(w'.inv.logs, o).NotHeld?
    ensures StockOf(w.inv.logs, o).Returned? ==> StockOf(w'.inv.logs, o).Returned?
  {
    assert TxnStutterOrStep(Abs(w, o), Abs(w', o));
  }

  lemma TaskStable(w: World, w': World, t: Task)
    requires Evolves(w, w') && TaskOk(w, t)
    ensures TaskOk(w', t)
  {
    match t
    case Pub(b) => BackedStable(w, w', b);
    case ReserveLoop(cmd, _) => BackedStable(w, w', cmd);
    case ReserveCas(cmd, _, _) => BackedStable(w, w', cmd);
    case ReleaseTxn(cmd) => BackedStable(w, w', cmd);
    case PayLookup(cmd, _) => BackedStable(w, w', cmd);
    case PayInsert(cmd, _) => BackedStable(w, w', cmd);
    case Recover(todo) =>
      forall row | row in todo ensures SnapshotOk(w', row) {
        assert TxnStutterOrStep(Abs(w, row.state.orderId), Abs(w', row.state.orderId));
      }
  }

  lemma OrdersStable(w: World, w': World)
    requires Evolves(w, w') && OrdersOk(w)
    ensures OrdersOk(w')
  {
    forall o: OrderId ensures TxnOk(Abs(w', o)) {
      assert TxnOk(Abs(w, o)) && TxnStutterOrStep(Abs(w, o), Abs(w', o));
    }
  }

  lemma MessagesStable(w: World, w': World)
    requires Evolves(w, w') && MessagesOk(w)
    requires forall m :: m in w'.net && m !in w.net ==> Backed(w', m.body)
    requires forall wk :: wk in w'.tasks && !(wk in w.tasks && w.tasks[wk] == w'.tasks[wk]) ==> TaskOk(w', w'.tasks[wk])
    ensures MessagesOk(w')
  {
    forall m | m in w.net { BackedStable(w, w', m.body); }
    forall wk | wk in w.tasks { TaskStable(w, w', w.tasks[wk]); }
  }

  lemma Reflexive(w: World)
    ensures Evolves(w, w)
  {
  }

  /** A step on the databases keeps the invariant once its effect on the order tables and logs is checked. */
  lemma Conclude(w: World, w': World)
    requires Inv(w) && Evolves(w, w')
    requires Indexed(w'.db) && SagasOk(w') && LogsMatch(w')
    requires w'.net == w.net && w'.tasks == w.tasks
    ensures Inv(w')
  {
    OrdersStable(w, w');
    MessagesStable(w, w');
  }
}
