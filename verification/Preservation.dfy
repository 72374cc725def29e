/** Every action keeps the invariant and moves each order by at most one atomic step. */
module Preservation {
  import opened SagaTypes
  import opened OrderDatabase
  import opened InventoryDatabase
  import opened PaymentDatabase
  import opened Protocol
  import opened OrderTransaction
  import opened Invariant

  /** Steps that leave saga rows, logs and payments alone; new orders may appear. */
  lemma TablesKept(w: World, w': World)
    requires Indexed(w.db) && SagasOk(w) && LogsMatch(w)
    requires w'.db.sagas == w.db.sagas && w'.db.byOrder == w.db.byOrder && w'.hist == w.hist
    requires w'.inv.logs == w.inv.logs && w'.pay.payments == w.pay.payments && w.nextId <= w'.nextId
    requires forall o :: o in w.db.orders ==> o in w'.db.orders && w'.db.orders[o] == w.db.orders[o]
    requires forall o :: o in w'.db.orders && o !in w.db.orders ==>
               w'.db.orders[o].status == Pending && w'.db.orders[o].quantity >= 1
    ensures Evolves(w, w') && Indexed(w'.db) && SagasOk(w') && LogsMatch(w')
  {
    forall o: OrderId ensures Abs(w', o) == Abs(w, o) {
    }
    SagasKept(w, w');
  }

  lemma SagasKept(w: World, w': World)
    requires SagasOk(w) && w'.hist == w.hist && w.nextId <= w'.nextId
    requires w'.db.sagas == w.db.sagas && w'.db.byOrder == w.db.byOrder
    requires forall o :: o in w.db.orders ==> o in w'.db.orders && w'.db.orders[o] == w.db.orders[o]
    requires forall o :: o in w'.db.orders && o !in w.db.orders ==> w'.db.orders[o].status == Pending
    ensures SagasOk(w')
  {
    forall s | s in w'.db.sagas ensures Moves(w', s) == Moves(w, s) {
    }
  }

  // ---------------------------------------------------------------- steps that write no database

  /** Only messages, tasks, the id counter and the metric change. */
  ghost predicate Quiet(w: World, w': World) {
    true == (w'.db == w.db && w'.inv == w.inv && w'.pay == w.pay && w'.hist == w.hist && w.nextId <= w'.nextId)
  }

  ghost predicate AddsBacked(w: World, w': World) {
    true == (
      && (forall m :: m in w'.net && m !in w.net ==> Backed(w, m.body))
      && (forall wk :: wk in w'.tasks && !(wk in w.tasks && w.tasks[wk] == w'.tasks[wk]) ==> TaskOk(w, w'.tasks[wk])))
  }

  lemma QuietEvolves(w: World, w': World)
    requires Quiet(w, w')
    ensures Evolves(w, w')
  {
    forall o: OrderId ensures Abs(w', o) == Abs(w, o) {
    }
  }

  lemma QuietMessages(w: World, w': World)
    requires MessagesOk(w) && Quiet(w, w') && AddsBacked(w, w')
    ensures MessagesOk(w')
  {
    QuietEvolves(w, w');
    forall b: Payload | Backed(w, b) { BackedStable(w, w', b); }
    forall t: Task | TaskOk(w, t) { TaskStable(w, w', t); }
  }

  lemma QuietStep(w: World, w': World)
    requires Inv(w) && Quiet(w, w') && AddsBacked(w, w')
    ensures Inv(w') && Evolves(w, w')
  {
    QuietEvolves(w, w');
    QuietMessages(w, w');
    OrdersStable(w, w');
    SagasKept(w, w');
  }

  /** A step on the databases followed by a quiet one is still one step of every order. */
  lemma ThenQuiet(w: World, w1: World, w2: World)
    requires Evolves(w, w1) && Inv(w1) && Quiet(w1, w2) && AddsBacked(w1, w2)
    ensures Inv(w2) && Evolves(w, w2)
  {
    QuietStep(w1, w2);
    forall o: OrderId ensures Abs(w2, o) == Abs(w1, o) {
    }
  }

  lemma ThenAssign(w: World, w1: World, wk: WorkerId, t: Task)
    requires Evolves(w, w1) && Inv(w1) && TaskOk(w1, t)
    ensures Inv(Assign(w1, wk, t)) && Evolves(w, Assign(w1, wk, t))
  {
    ThenQuiet(w, w1, Assign(w1, wk, t));
  }

  lemma ThenSend(w: World, w1: World, b: Payload)
    requires Evolves(w, w1) && Inv(w1) && Backed(w1, b)
    ensures Inv(Send(w1, b)) && Evolves(w, Send(w1, b))
  {
    ThenQuiet(w, w1, Send(w1, b));
  }

  lemma FinishKeeps(w: World, wk: WorkerId)
    requires Inv(w)
    ensures Inv(Finish(w, wk)) && Evolves(w, Finish(w, wk))
  {
    QuietStep(w, Finish(w, wk));
  }

  lemma AssignKeeps(w: World, wk: WorkerId, t: Task)
    requires Inv(w) && TaskOk(w, t)
    ensures Inv(Assign(w, wk, t)) && Evolves(w, Assign(w, wk, t))
  {
    QuietStep(w, Assign(w, wk, t));
  }

  lemma PublishKeeps(w: World, wk: WorkerId)
    requires Inv(w)
    ensures Inv(DoPublish(w, wk)) && Evolves(w, DoPublish(w, wk))
  {
    if wk in w.tasks && w.tasks[wk].Pub? {
      assert TaskOk(w, w.tasks[wk]);
      FinishKeeps(w, wk);
      BackedStable(w, Finish(w, wk), w.tasks[wk].body);
      ThenSend(w, Finish(w, wk), w.tasks[wk].body);
    } else {
      Reflexive(w);
    }
  }

  lemma BeginReserveKeeps(w: World, wk: WorkerId, m: Message)
    requires Inv(w)
    ensures Inv(DoBeginReserve(w, wk, m)) && Evolves(w, DoBeginReserve(w, wk, m))
  {
    if !Idle(w, wk) || m !in w.net || !m.body.ReserveInventoryCmd? {
      Reflexive(w);
    } else if HasLog(w.inv.logs, m.body.orderId, Reserve) {
      AssignKeeps(w, wk, Pub(Reserved(m.body, true, "")));
    } else {
      AssignKeeps(w, wk, LoopOrGiveUp(m.body, 0, w.maxRetries));
    }
  }

  lemma ReadStockKeeps(w: World, wk: WorkerId)
    requires Inv(w)
    ensures Inv(DoReadStock(w, wk)) && Evolves(w, DoReadStock(w, wk))
  {
    if wk in w.tasks && w.tasks[wk].ReserveLoop? && w.tasks[wk].cmd.ReserveInventoryCmd? {
      var t := w.tasks[wk];
      assert TaskOk(w, t);
      if t.cmd.productId !in w.inv.rows {
        FinishKeeps(w, wk);
      } else if w.inv.rows[t.cmd.productId].available < t.cmd.quantity {
        AssignKeeps(w, wk, Pub(Reserved(t.cmd, false, INSUFFICIENT_STOCK)));
      } else {
        AssignKeeps(w, wk, ReserveCas(t.cmd, t.attempt, w.inv.rows[t.cmd.productId].version));
      }
    } else {
      Reflexive(w);
    }
  }

  lemma BeginReleaseKeeps(w: World, wk: WorkerId, m: Message)
    requires Inv(w)
    ensures Inv(DoBeginRelease(w, wk, m)) && Evolves(w, DoBeginRelease(w, wk, m))
  {
    if !Idle(w, wk) || m !in w.net || !m.body.ReleaseInventoryCmd? {
      Reflexive(w);
    } else if HasLog(w.inv.logs, m.body.orderId, Release) {
      AssignKeeps(w, wk, Pub(Released(m.body, true, "")));
    } else {
      AssignKeeps(w, wk, ReleaseTxn(m.body));
    }
  }

  lemma BeginPaymentKeeps(w: World, wk: WorkerId, m: Message)
    requires Inv(w)
    ensures Inv(DoBeginPayment(w, wk, m)) && Evolves(w, DoBeginPayment(w, wk, m))
  {
    if !Idle(w, wk) || m !in w.net || !m.body.ProcessPaymentCmd? || m.id in w.pay.processed {
      Reflexive(w);
    } else {
      AssignKeeps(w, wk, PayLookup(m.body, m.id));
    }
  }

  lemma LookupPaymentKeeps(w: World, wk: WorkerId)
    requires Inv(w)
    ensures Inv(DoLookupPayment(w, wk)) && Evolves(w, DoLookupPayment(w, wk))
  {
    if wk in w.tasks && w.tasks[wk].PayLookup? {
      var t := w.tasks[wk];
      assert TaskOk(w, t);
      if t.cmd.orderId in w.pay.payments {
        AssignKeeps(w, wk, Pub(PaymentReply(t.cmd, w.pay.payments[t.cmd.orderId])));
      } else {
        AssignKeeps(w, wk, PayInsert(t.cmd, t.messageId));
      }
    } else {
      Reflexive(w);
    }
  }

  lemma ListSagasKeeps(w: World, wk: WorkerId, status: SagaStatus, listing: seq<Uuid>)
    requires Inv(w)
    ensures Inv(DoListSagas(w, wk, status, listing)) && Evolves(w, DoListSagas(w, wk, status, listing))
  {
    if !Idle(w, wk) || (status != InProgress && status != Compensating) || !IsListing(w.db, status, listing) {
      Reflexive(w);
    } else {
      var rows := Snapshots(w.db, listing);
      forall row | row in rows ensures SnapshotOk(w, row) {
        var i :| 0 <= i < |rows| && rows[i] == row;
        assert listing[i] in listing;
      }
      AssignKeeps(w, wk, Recover(rows));
    }
  }

  lemma ResendNextKeeps(w: World, wk: WorkerId, delivered: bool)
    requires Inv(w)
    ensures Inv(DoResendNext(w, wk, delivered)) && Evolves(w, DoResendNext(w, wk, delivered))
  {
    if wk in w.tasks && w.tasks[wk].Recover? {
      var todo := w.tasks[wk].todo;
      assert TaskOk(w, w.tasks[wk]);
      if todo == [] {
        FinishKeeps(w, wk);
      } else {
        ResendOneKeeps(w, wk, todo, delivered);
      }
    } else {
      Reflexive(w);
    }
  }

  lemma RecoveryBacked(w: World, row: SagaRow)
    requires SnapshotOk(w, row) && RecoveryCommand(w.db, row).Some?
    ensures Backed(w, RecoveryCommand(w.db, row).value)
  {
  }

  lemma ResendOneKeeps(w: World, wk: WorkerId, todo: seq<SagaRow>, delivered: bool)
    requires Inv(w) && wk in w.tasks && w.tasks[wk] == Recover(todo) && todo != [] && TaskOk(w, Recover(todo))
    ensures Inv(DoResendNext(w, wk, delivered)) && Evolves(w, DoResendNext(w, wk, delivered))
  {
    var w1 := Assign(w, wk, Recover(todo[1..]));
    assert SnapshotOk(w, todo[0]);
    assert TaskOk(w, Recover(todo[1..])) by {
      forall row | row in todo[1..] ensures SnapshotOk(w, row) {
      }
    }
    AssignKeeps(w, wk, Recover(todo[1..]));
    var c := RecoveryCommand(w.db, todo[0]);
    if c.Some? && delivered {
      RecoveryBacked(w, todo[0]);
      BackedStable(w, w1, c.value);
      ThenSend(w, w1, c.value);
    }
  }

  // ---------------------------------------------------------------- environment

  lemma OrderAdded(w: World, w': World, o: OrderId, ord: Order)
    requires Inv(w) && o !in w.db.orders && ord.quantity >= 1 && ord.status == Pending
    requires w' == w.(db := w.db.(orders := w.db.orders[o := ord]))
    ensures Inv(w') && Evolves(w, w')
  {
    TablesKept(w, w');
    Conclude(w, w');
  }

  lemma CreateOrderKeeps(w: World, o: OrderId, p: ProductId, q: int, amount: Amount)
    requires Inv(w)
    ensures Inv(DoCreateOrder(w, o, p, q, amount)) && Evolves(w, DoCreateOrder(w, o, p, q, amount))
  {
    if o in w.db.orders || q < 1 || amount <= 0.0 {
      Reflexive(w);
    } else {
      OrderAdded(w, DoCreateOrder(w, o, p, q, amount), o, Order(p, q, amount, Pending));
    }
  }

  /** Stock rows and admin adjustments are not part of this invariant. */
  lemma RowsKeep(w: World, w': World)
    requires Inv(w)
    requires w'.db == w.db && w'.inv.logs == w.inv.logs && w'.pay == w.pay && w'.hist == w.hist
    requires w'.net == w.net && w'.tasks == w.tasks && w'.nextId == w.nextId
    ensures Inv(w') && Evolves(w, w')
  {
    TablesKept(w, w');
    Conclude(w, w');
  }

  lemma CreateSkuKeeps(w: World, p: ProductId, qty: int)
    requires Inv(w)
    ensures Inv(DoCreateSku(w, p, qty)) && Evolves(w, DoCreateSku(w, p, qty))
  {
    RowsKeep(w, DoCreateSku(w, p, qty));
  }

  lemma AdminPutKeeps(w: World, p: ProductId, qty: int)
    requires Inv(w)
    ensures Inv(DoAdminPut(w, p, qty)) && Evolves(w, DoAdminPut(w, p, qty))
  {
    RowsKeep(w, DoAdminPut(w, p, qty));
  }

  lemma PaymentRowEvolves(w: World, w': World, o: OrderId, row: Payment)
    requires OrdersOk(w) && o !in w.pay.payments
    requires row.status == PaymentSuccess ==> OrderPhase(w, o).Paying?
    requires w'.db == w.db && w'.inv == w.inv && w'.hist == w.hist && w.nextId <= w'.nextId
    requires w'.pay.payments == w.pay.payments[o := row]
    ensures Evolves(w, w')
  {
    forall x: OrderId ensures TxnStutterOrStep(Abs(w, x), Abs(w', x)) {
      assert TxnOk(Abs(w, x));
      assert x != o ==> Abs(w', x) == Abs(w, x);
    }
  }

  /** Inserting a payment row: a charge only while the saga is paying, any other row at any time. */
  lemma PaymentRowKeeps(w: World, w': World, o: OrderId, row: Payment)
    requires Inv(w) && o !in w.pay.payments
    requires row.status == PaymentSuccess ==> OrderPhase(w, o).Paying?
    requires w'.db == w.db && w'.inv == w.inv && w'.hist == w.hist && w.nextId <= w'.nextId
    requires w'.pay.payments == w.pay.payments[o := row] && w'.net == w.net && w'.tasks == w.tasks
    ensures Inv(w') && Evolves(w, w')
  {
    PaymentRowEvolves(w, w', o, row);
    SagasKept(w, w');
    Conclude(w, w');
  }

  lemma PostPaymentKeeps(w: World, o: OrderId, amount: Amount)
    requires Inv(w)
    ensures Inv(DoPostPayment(w, o, amount)) && Evolves(w, DoPostPayment(w, o, amount))
  {
    if o in w.pay.payments || amount <= 0.0 {
      Reflexive(w);
    } else {
      PaymentRowKeeps(w, DoPostPayment(w, o, amount), o, Payment(amount, PaymentPending, w.nextId));
    }
  }

  // ---------------------------------------------------------------- payment service

  lemma InsertPaymentKeeps(w: World, wk: WorkerId, declined: bool)
    requires Inv(w)
    ensures Inv(DoInsertPayment(w, wk, declined)) && Evolves(w, DoInsertPayment(w, wk, declined))
  {
    if wk in w.tasks && w.tasks[wk].PayInsert? && w.tasks[wk].cmd.ProcessPaymentCmd? {
      var t := w.tasks[wk];
      if t.cmd.orderId in w.pay.payments || t.messageId in w.pay.processed {
        FinishKeeps(w, wk);
      } else {
        assert TaskOk(w, t);
        PaymentInserted(w, wk, t.cmd, t.messageId, declined);
      }
    } else {
      Reflexive(w);
    }
  }

  lemma PaymentInserted(w: World, wk: WorkerId, cmd: Payload, id: Uuid, declined: bool)
    requires Inv(w) && wk in w.tasks && w.tasks[wk] == PayInsert(cmd, id)
    requires cmd.ProcessPaymentCmd? && Backed(w, cmd) && cmd.orderId !in w.pay.payments && id !in w.pay.processed
    ensures Inv(DoInsertPayment(w, wk, declined)) && Evolves(w, DoInsertPayment(w, wk, declined))
  {
    var row := Payment(cmd.amount, if declined then PaymentFailed else PaymentSuccess, w.nextId);
    var w1 := w.(pay := InsertPaymentTx(w.pay, cmd.orderId, row, id).value, nextId := w.nextId + 1);
    PaymentDecided(w, w1, cmd, row);
    assert DoInsertPayment(w, wk, declined) == Assign(w1, wk, Pub(PaymentReply(cmd, row)));
    ThenAssign(w, w1, wk, Pub(PaymentReply(cmd, row)));
  }

  lemma PaymentDecided(w: World, w1: World, cmd: Payload, row: Payment)
    requires Inv(w) && cmd.ProcessPaymentCmd? && Backed(w, cmd) && cmd.orderId !in w.pay.payments
    requires w1 == w.(pay := w1.pay, nextId := w.nextId + 1)
    requires w1.pay.payments == w.pay.payments[cmd.orderId := row]
    ensures Inv(w1) && Evolves(w, w1) && TaskOk(w1, Pub(PaymentReply(cmd, row)))
  {
    assert TxnOk(Abs(w, cmd.orderId));
    PaymentRowKeeps(w, w1, cmd.orderId, row);
    BackedStable(w, w1, cmd);
  }

  // ---------------------------------------------------------------- order service

  lemma StartSagaEvolves(w: World, w': World, o: OrderId)
    requires Indexed(w.db) && o !in w.db.byOrder && w.nextId !in w.db.sagas
    requires w'.db == w.db.(sagas := w.db.sagas[w.nextId := SagaState(o, ReservingInventory, InProgress, None, "")],
                            byOrder := w.db.byOrder[o := w.nextId])
    requires w'.hist == w.hist[w.nextId := []] && w'.nextId == w.nextId + 1 && w'.inv == w.inv && w'.pay == w.pay
    ensures Evolves(w, w')
  {
    forall x: OrderId ensures TxnStutterOrStep(Abs(w, x), Abs(w', x)) {
      assert x in w.db.byOrder ==> w.db.byOrder[x] != w.nextId;
      assert x != o ==> Abs(w', x) == Abs(w, x);
    }
  }

  lemma StartSagaIndex(w: World, w': World, o: OrderId)
    requires Indexed(w.db) && SagasOk(w) && o in w.db.orders && InsertSaga(w.db, w.nextId, o).Some?
    requires w'.db == InsertSaga(w.db, w.nextId, o).value
    ensures Indexed(w'.db)
  {
  }

  lemma StartSagaRows(w: World, w': World, o: OrderId)
    requires Indexed(w.db) && SagasOk(w) && o in w.db.orders && InsertSaga(w.db, w.nextId, o).Some?
    requires w'.db == InsertSaga(w.db, w.nextId, o).value && w'.hist == w.hist[w.nextId := []]
    requires w'.nextId == w.nextId + 1
    ensures SagasOk(w')
  {
    assert w.nextId !in w.db.sagas;
    forall x | x in w.db.sagas ensures Moves(w', x) == Moves(w, x) {
    }
  }

  lemma SagaStarted(w: World, w1: World, o: OrderId)
    requires Inv(w) && o in w.db.orders && InsertSaga(w.db, w.nextId, o).Some?
    requires w1 == w.(db := InsertSaga(w.db, w.nextId, o).value, nextId := w.nextId + 1, hist := w.hist[w.nextId := []])
    ensures Inv(w1) && Evolves(w, w1)
  {
    StartSagaEvolves(w, w1, o);
    StartSagaIndex(w, w1, o);
    StartSagaRows(w, w1, o);
    Conclude(w, w1);
  }

  lemma StartSagaKeeps(w: World, wk: WorkerId, o: OrderId)
    requires Inv(w)
    ensures Inv(DoStartSaga(w, wk, o)) && Evolves(w, DoStartSaga(w, wk, o))
  {
    if Idle(w, wk) && o in w.db.orders && InsertSaga(w.db, w.nextId, o).Some? {
      var ord := w.db.orders[o];
      var w1 := w.(db := InsertSaga(w.db, w.nextId, o).value, nextId := w.nextId + 1, hist := w.hist[w.nextId := []]);
      SagaStarted(w, w1, o);
      var t := Pub(ReserveInventoryCmd(w.nextId, o, ord.productId, ord.quantity));
      FirstCommandBacked(w1, t.body);
      assert DoStartSaga(w, wk, o) == Assign(w1, wk, t);
      ThenAssign(w, w1, wk, t);
    } else {
      Reflexive(w);
    }
  }

  lemma FirstCommandBacked(w: World, b: Payload)
    requires b.ReserveInventoryCmd? && Linked(w, b.sagaId, b.orderId) && SameGoods(w, b.orderId, b.productId, b.quantity)
    ensures TaskOk(w, Pub(b))
  {
  }

  /** The effect of a Commit* transaction that moves saga s of order o to row g. */
  ghost predicate SagaMoved(w: World, w': World, s: Uuid, o: OrderId, g: SagaState, status: OrderStatus, id: Uuid) {
    true == (
      && Linked(w, s, o) && s in w.db.sagas && s in w.hist
      && w'.inv == w.inv && w'.pay == w.pay && w'.net == w.net && w'.nextId == w.nextId && w'.tasks == w.tasks
      && w'.db == OrderDb(w.db.orders[o := w.db.orders[o].(status := status)], w.db.sagas[s := g],
                          w.db.byOrder, w.db.processed + {id})
      && w'.hist == w.hist[s := w.hist[s] + [id]])
  }

  /** Moving saga s of order o to row g changes the record of o only, and only its phase. */
  lemma RowMovedAbs(w: World, w': World, s: Uuid, o: OrderId, g: SagaState, id: Uuid)
    requires Indexed(w.db) && s in w.db.sagas && w.db.sagas[s].orderId == o && s in w.hist
    requires w'.inv == w.inv && w'.pay == w.pay && w'.db.byOrder == w.db.byOrder
    requires w'.db.sagas == w.db.sagas[s := g] && w'.hist == w.hist[s := w.hist[s] + [id]]
    ensures Abs(w', o) == Abs(w, o).(phase := PhaseOf(g, Moves(w, s) + 1))
    ensures forall x: OrderId :: x != o ==> Abs(w', x) == Abs(w, x)
  {
    forall x: OrderId | x != o ensures Abs(w', x) == Abs(w, x) {
      assert x in w.db.byOrder ==> w.db.byOrder[x] != s;
    }
  }

  lemma SagaMovedIndex(w: World, w': World, s: Uuid, o: OrderId, g: SagaState, status: OrderStatus, id: Uuid)
    requires Indexed(w.db) && SagaMoved(w, w', s, o, g, status, id) && g.orderId == o
    ensures Indexed(w'.db)
  {
  }

  lemma SagaMovedRows(w: World, w': World, s: Uuid, o: OrderId, g: SagaState, status: OrderStatus, id: Uuid)
    requires Indexed(w.db) && SagasOk(w) && SagaMoved(w, w', s, o, g, status, id)
    requires g.orderId == o && RowOk(g, status, Moves(w, s) + 1)
    ensures SagasOk(w')
  {
    forall x | x in w.db.sagas && x != s
      ensures Moves(w', x) == Moves(w, x) && w'.db.orders[w.db.sagas[x].orderId] == w.db.orders[w.db.sagas[x].orderId]
    {
      assert w.db.sagas[x].orderId != o;
    }
  }

  lemma SagaMovedEvolves(w: World, w': World, s: Uuid, o: OrderId, g: SagaState, status: OrderStatus, id: Uuid)
    requires Indexed(w.db) && SagaMoved(w, w', s, o, g, status, id)
    requires TxnStep(Abs(w, o), Abs(w, o).(phase := PhaseOf(g, Moves(w, s) + 1)))
    ensures Evolves(w, w')
  {
    RowMovedAbs(w, w', s, o, g, id);
    forall x: OrderId ensures TxnStutterOrStep(Abs(w, x), Abs(w', x)) {
    }
  }

  lemma SagaMovedKeeps(w: World, w': World, s: Uuid, o: OrderId, g: SagaState, status: OrderStatus, id: Uuid)
    requires Inv(w) && SagaMoved(w, w', s, o, g, status, id)
    requires g.orderId == o && RowOk(g, status, Moves(w, s) + 1)
    requires TxnStep(Abs(w, o), Abs(w, o).(phase := PhaseOf(g, Moves(w, s) + 1)))
    ensures Inv(w') && Evolves(w, w')
  {
    SagaMovedEvolves(w, w', s, o, g, status, id);
    SagaMovedIndex(w, w', s, o, g, status, id);
    SagaMovedRows(w, w', s, o, g, status, id);
    Conclude(w, w');
  }

  /** The saga row, order status and command that a moving event leads to. */
  function NextRow(g: SagaState, m: Message): SagaState {
    match m.body
    case InventoryReservedEvent(_, _, _, _, ok, reason) =>
      if ok then g.(step := ProcessingPayment, lastEventId := Some(m.id))
      else SagaState(g.orderId, Done, SagaFailed, Some(m.id), Truncate(reason))
    case PaymentProcessedEvent(_, _, _, ok, reason) =>
      if ok then g.(step := Done, status := Completed, lastEventId := Some(m.id))
      else SagaState(g.orderId, ReleasingInventory, Compensating, Some(m.id), Truncate(reason))
    case InventoryReleasedEvent(_, _, _, _, ok, reason) =>
      if ok then g.(step := Done, status := SagaCompensated, lastEventId := Some(m.id))
      else SagaState(g.orderId, Done, SagaFailed, Some(m.id), Truncate(COMPENSATION_FAILED + reason))
    case _ => g
  }

  function NextStatus(status: OrderStatus, m: Message): OrderStatus {
    match m.body
    case InventoryReservedEvent(_, _, _, _, ok, _) => if ok then OrderStatus.InventoryReserved else OrderFailed
    case PaymentProcessedEvent(_, _, _, ok, _) => if ok then Confirmed else OrderFailed
    case InventoryReleasedEvent(_, _, _, _, ok, _) => if ok then OrderCompensated else status
    case _ => status
  }

  function FollowUp(ord: Order, b: Payload): Option<Payload> {
    match b
    case InventoryReservedEvent(s, o, _, _, ok, _) =>
      if ok then Some(ProcessPaymentCmd(s, o, ord.totalAmount)) else None
    case PaymentProcessedEvent(s, o, _, ok, _) =>
      if ok then None else Some(ReleaseInventoryCmd(s, o, ord.productId, ord.quantity))
    case _ => None
  }

  /** An event acts exactly when its id is new and its saga waits for it. */
  predicate Awaits(g: SagaState, b: Payload) {
    match b
    case InventoryReservedEvent(_, _, _, _, _, _) => g.step == ReservingInventory
    case PaymentProcessedEvent(_, _, _, _, _) => g.step == ProcessingPayment
    case InventoryReleasedEvent(_, _, _, _, _, _) => g.step == ReleasingInventory && g.status == Compensating
    case _ => false
  }

  lemma ReactMeaning(w: World, m: Message)
    requires Inv(w) && Backed(w, m.body)
    ensures var s := m.body.sagaId; var o := m.body.orderId;
            s in w.db.sagas && w.db.sagas[s].orderId == o && s in w.hist
    ensures var s := m.body.sagaId; var o := m.body.orderId;
            React(w.db, m) ==
            (if m.id in w.db.processed || !Awaits(w.db.sagas[s], m.body) then Ignored
             else Moved(OrderDb(w.db.orders[o := w.db.orders[o].(status := NextStatus(w.db.orders[o].status, m))],
                                w.db.sagas[s := NextRow(w.db.sagas[s], m)],
                                w.db.byOrder, w.db.processed + {m.id}),
                        FollowUp(w.db.orders[o], m.body),
                        if NextRow(w.db.sagas[s], m).step == Done then Some(NextRow(w.db.sagas[s], m).status) else None))
  {
    var o := m.body.orderId;
    assert w.db.orders[o := w.db.orders[o].(status := w.db.orders[o].status)] == w.db.orders;
  }

  lemma EventMoves(w: World, m: Message)
    requires Inv(w) && Backed(w, m.body)
    requires m.body.sagaId in w.db.sagas && Awaits(w.db.sagas[m.body.sagaId], m.body)
    ensures var s := m.body.sagaId; var o := m.body.orderId; var g := NextRow(w.db.sagas[s], m);
            && g.orderId == o
            && o in w.db.orders
            && RowOk(g, NextStatus(w.db.orders[o].status, m), Moves(w, s) + 1)
            && TxnStep(Abs(w, o), Abs(w, o).(phase := PhaseOf(g, Moves(w, s) + 1)))
            && (FollowUp(w.db.orders[o], m.body).Some? ==>
                  (m.body.InventoryReservedEvent? && AtLeastPaying(PhaseOf(g, Moves(w, s) + 1)))
                  || (m.body.PaymentProcessedEvent? && AtLeastReleasing(PhaseOf(g, Moves(w, s) + 1))))
  {
    var s, o := m.body.sagaId, m.body.orderId;
    assert TxnOk(Abs(w, o));
    assert RowOk(w.db.sagas[s], w.db.orders[o].status, Moves(w, s));
  }

  lemma HandleEventKeeps(w: World, wk: WorkerId, m: Message, recorded: bool)
    requires Inv(w)
    ensures Inv(DoHandleEvent(w, wk, m, recorded)) && Evolves(w, DoHandleEvent(w, wk, m, recorded))
  {
    if Idle(w, wk) && m in w.net && React(w.db, m).Moved? {
      MovingEventKeeps(w, wk, m, recorded);
    } else {
      Reflexive(w);
    }
  }

  lemma RecordKeeps(w: World, w1: World, s: Uuid, terminal: Option<SagaStatus>)
    requires Evolves(w, w1) && Inv(w1)
    ensures Inv(Record(w1, s, terminal)) && Evolves(w, Record(w1, s, terminal))
    ensures Quiet(w1, Record(w1, s, terminal))
  {
    ThenQuiet(w, w1, Record(w1, s, terminal));
  }

  lemma EventComposed(w: World, wk: WorkerId, m: Message, recorded: bool)
    requires Idle(w, wk) && m in w.net && React(w.db, m).Moved?
    ensures var r := React(w.db, m);
            var w2 := Record(Advance(w, r.db, m.body.sagaId, m.id), m.body.sagaId, if recorded then r.terminal else None);
            DoHandleEvent(w, wk, m, recorded) == (if r.command.Some? then Assign(w2, wk, Pub(r.command.value)) else w2)
  {
  }

  lemma MovingEventKeeps(w: World, wk: WorkerId, m: Message, recorded: bool)
    requires Inv(w) && Idle(w, wk) && m in w.net && React(w.db, m).Moved?
    ensures Inv(DoHandleEvent(w, wk, m, recorded)) && Evolves(w, DoHandleEvent(w, wk, m, recorded))
  {
    var r := React(w.db, m);
    var w1 := Advance(w, r.db, m.body.sagaId, m.id);
    var w2 := Record(w1, m.body.sagaId, if recorded then r.terminal else None);
    EventAdvances(w, m);
    RecordKeeps(w, w1, m.body.sagaId, if recorded then r.terminal else None);
    EventComposed(w, wk, m, recorded);
    if r.command.Some? {
      QuietEvolves(w1, w2);
      BackedStable(w1, w2, r.command.value);
      ThenAssign(w, w2, wk, Pub(r.command.value));
    }
  }

  lemma EventAdvances(w: World, m: Message)
    requires Inv(w) && m in w.net && React(w.db, m).Moved?
    ensures var r := React(w.db, m); var w1 := Advance(w, r.db, m.body.sagaId, m.id);
            Inv(w1) && Evolves(w, w1) && (r.command.Some? ==> Backed(w1, r.command.value))
  {
    var s, o := m.body.sagaId, m.body.orderId;
    assert Backed(w, m.body);
    ReactMeaning(w, m);
    EventMoves(w, m);
    var r := React(w.db, m);
    var w1 := Advance(w, r.db, s, m.id);
    SagaMovedKeeps(w, w1, s, o, NextRow(w.db.sagas[s], m), NextStatus(w.db.orders[o].status, m), m.id);
    if r.command.Some? {
      FollowUpBacked(w, w1, m);
    }
  }

  lemma FollowUpBacked(w: World, w': World, m: Message)
    requires Evolves(w, w') && Backed(w, m.body) && FollowUp(w.db.orders[m.body.orderId], m.body).Some?
    requires m.body.InventoryReservedEvent? ==> AtLeastPaying(OrderPhase(w', m.body.orderId))
    requires m.body.PaymentProcessedEvent? ==> AtLeastReleasing(OrderPhase(w', m.body.orderId))
    ensures Backed(w', FollowUp(w.db.orders[m.body.orderId], m.body).value)
  {
  }

  // ---------------------------------------------------------------- inventory service

  ghost predicate Appended(w: World, w': World, e: InventoryLog) {
    true == (
      && w'.db == w.db && w'.pay == w.pay && w'.hist == w.hist && w'.net == w.net && w'.nextId == w.nextId
      && w'.tasks == w.tasks && w'.inv.logs == w.inv.logs + [e])
  }

  function StockAfter(action: LogAction): Stock {
    if action == Release then Returned else Held
  }

  /** Appending a log entry for an order changes the stock of that order only. */
  lemma AppendedAbs(w: World, w': World, e: InventoryLog)
    requires Appended(w, w', e)
    requires e.action == Reserve ==> !HasLog(w.inv.logs, e.orderId, Release)
    ensures Abs(w', e.orderId) == Abs(w, e.orderId).(stock := StockAfter(e.action))
    ensures forall x: OrderId :: x != e.orderId ==> Abs(w', x) == Abs(w, x)
  {
    forall x: OrderId, act: LogAction
      ensures HasLog(w'.inv.logs, x, act) <==> HasLog(w.inv.logs, x, act) || (e.orderId == x && e.action == act)
    {
      HasLogAppend(w.inv.logs, e, x, act);
    }
  }

  lemma AppendedMatch(w: World, w': World, e: InventoryLog)
    requires LogsMatch(w) && Appended(w, w', e)
    requires e.orderId in w.db.orders
    requires e.productId == w.db.orders[e.orderId].productId && e.quantity == w.db.orders[e.orderId].quantity
    requires e.action == Release ==> HasLog(w.inv.logs, e.orderId, Reserve)
    ensures LogsMatch(w')
  {
    forall x: OrderId | HasLog(w'.inv.logs, x, Release) ensures HasLog(w'.inv.logs, x, Reserve) {
      HasLogAppend(w.inv.logs, e, x, Release);
      HasLogAppend(w.inv.logs, e, x, Reserve);
    }
  }

  lemma AppendedEvolves(w: World, w': World, e: InventoryLog)
    requires Appended(w, w', e)
    requires e.action == Reserve ==> !HasLog(w.inv.logs, e.orderId, Release)
    requires TxnStep(Abs(w, e.orderId), Abs(w, e.orderId).(stock := StockAfter(e.action)))
    ensures Evolves(w, w')
  {
    AppendedAbs(w, w', e);
    forall x: OrderId ensures TxnStutterOrStep(Abs(w, x), Abs(w', x)) {
    }
  }

  lemma AppendedKeeps(w: World, w': World, e: InventoryLog)
    requires Inv(w) && Appended(w, w', e)
    requires SameGoods(w, e.orderId, e.productId, e.quantity)
    requires e.action == Reserve ==> !HasLog(w.inv.logs, e.orderId, Release)
    requires e.action == Release ==> HasLog(w.inv.logs, e.orderId, Reserve)
    requires TxnStep(Abs(w, e.orderId), Abs(w, e.orderId).(stock := StockAfter(e.action)))
    ensures Inv(w') && Evolves(w, w') && StockOf(w'.inv.logs, e.orderId) == StockAfter(e.action)
  {
    AppendedEvolves(w, w', e);
    AppendedMatch(w, w', e);
    SagasKept(w, w');
    Conclude(w, w');
    AppendedAbs(w, w', e);
  }

  lemma CasReserveKeeps(w: World, wk: WorkerId)
    requires Inv(w)
    ensures Inv(DoCasReserve(w, wk)) && Evolves(w, DoCasReserve(w, wk))
  {
    if wk in w.tasks && w.tasks[wk].ReserveCas? && w.tasks[wk].cmd.ReserveInventoryCmd? {
      var t := w.tasks[wk];
      assert TaskOk(w, t);
      if ReserveTx(w.inv, t.cmd.productId, t.cmd.orderId, t.version, t.cmd.quantity).Applied? {
        ReserveApplied(w, wk, t);
      } else {
        ReserveMissed(w, wk, t);
      }
    } else {
      Reflexive(w);
    }
  }

  lemma ReserveMissed(w: World, wk: WorkerId, t: Task)
    requires Inv(w) && wk in w.tasks && w.tasks[wk] == t && t.ReserveCas? && TaskOk(w, t)
    requires t.cmd.ReserveInventoryCmd?
    requires !ReserveTx(w.inv, t.cmd.productId, t.cmd.orderId, t.version, t.cmd.quantity).Applied?
    ensures Inv(DoCasReserve(w, wk)) && Evolves(w, DoCasReserve(w, wk))
  {
    MissIs(w, wk, t);
    FinishKeeps(w, wk);
    AssignKeeps(w, wk, LoopOrGiveUp(t.cmd, t.attempt + 1, w.maxRetries));
  }

  lemma MissIs(w: World, wk: WorkerId, t: Task)
    requires wk in w.tasks && w.tasks[wk] == t && t.ReserveCas? && TaskOk(w, t) && t.cmd.ReserveInventoryCmd?
    requires !ReserveTx(w.inv, t.cmd.productId, t.cmd.orderId, t.version, t.cmd.quantity).Applied?
    ensures var again := LoopOrGiveUp(t.cmd, t.attempt + 1, w.maxRetries);
            TaskOk(w, again) && (DoCasReserve(w, wk) == Finish(w, wk) || DoCasReserve(w, wk) == Assign(w, wk, again))
  {
  }

  lemma ReserveApplied(w: World, wk: WorkerId, t: Task)
    requires Inv(w) && wk in w.tasks && w.tasks[wk] == t && t.ReserveCas?
    requires t.cmd.ReserveInventoryCmd? && Backed(w, t.cmd)
    requires ReserveTx(w.inv, t.cmd.productId, t.cmd.orderId, t.version, t.cmd.quantity).Applied?
    ensures Inv(DoCasReserve(w, wk)) && Evolves(w, DoCasReserve(w, wk))
  {
    var cmd := t.cmd;
    var w1 := w.(inv := ReserveTx(w.inv, cmd.productId, cmd.orderId, t.version, cmd.quantity).db);
    assert TxnOk(Abs(w, cmd.orderId));
    assert !HasLog(w.inv.logs, cmd.orderId, Release);
    AppendedKeeps(w, w1, InventoryLog(cmd.productId, cmd.orderId, Reserve, cmd.quantity));
    BackedStable(w, w1, cmd);
    ThenAssign(w, w1, wk, Pub(Reserved(cmd, true, "")));
  }

  lemma CommitReleaseKeeps(w: World, wk: WorkerId, fault: bool, errorText: string)
    requires Inv(w)
    ensures Inv(DoCommitRelease(w, wk, fault, errorText)) && Evolves(w, DoCommitRelease(w, wk, fault, errorText))
  {
    if wk in w.tasks && w.tasks[wk].ReleaseTxn? && w.tasks[wk].cmd.ReleaseInventoryCmd? {
      var cmd := w.tasks[wk].cmd;
      assert TaskOk(w, w.tasks[wk]);
      if fault {
        AssignKeeps(w, wk, Pub(Released(cmd, false, errorText)));
      } else {
        match ReleaseTx(w.inv, cmd.productId, cmd.orderId, cmd.quantity)
        case NoRow => AssignKeeps(w, wk, Pub(Released(cmd, false, NotFound(cmd.productId))));
        case DuplicateLog => AssignKeeps(w, wk, Pub(Released(cmd, false, errorText)));
        case Applied(_) => ReleaseApplied(w, wk, cmd, errorText);
      }
    } else {
      Reflexive(w);
    }
  }

  lemma ReleaseApplied(w: World, wk: WorkerId, cmd: Payload, errorText: string)
    requires Inv(w) && wk in w.tasks && w.tasks[wk] == ReleaseTxn(cmd)
    requires cmd.ReleaseInventoryCmd? && Backed(w, cmd)
    requires ReleaseTx(w.inv, cmd.productId, cmd.orderId, cmd.quantity).Applied?
    ensures Inv(DoCommitRelease(w, wk, false, errorText)) && Evolves(w, DoCommitRelease(w, wk, false, errorText))
  {
    var w1 := w.(inv := ReleaseTx(w.inv, cmd.productId, cmd.orderId, cmd.quantity).db);
    assert TxnOk(Abs(w, cmd.orderId));
    AppendedKeeps(w, w1, InventoryLog(cmd.productId, cmd.orderId, Release, cmd.quantity));
    BackedStable(w, w1, cmd);
    ThenAssign(w, w1, wk, Pub(Released(cmd, true, "")));
  }

  // ---------------------------------------------------------------- all actions

  lemma EnvironmentKeeps(w: World, a: Action)
    requires Inv(w) && a.Worker().None?
    ensures Inv(Next(w, a)) && Evolves(w, Next(w, a))
  {
    match a
    case CreateOrder(o, p, q, amount) => CreateOrderKeeps(w, o, p, q, amount);
    case CreateSku(p, qty) => CreateSkuKeeps(w, p, qty);
    case AdminPut(p, qty) => AdminPutKeeps(w, p, qty);
    case PostPayment(o, amount) => PostPaymentKeeps(w, o, amount);
  }

  predicate OfOrderService(a: Action) {
    a.StartSaga? || a.HandleEvent? || a.Publish? || a.Crash? || a.ListSagas? || a.ResendNext?
  }

  lemma OrderServiceKeeps(w: World, a: Action)
    requires Inv(w) && OfOrderService(a)
    ensures Inv(Next(w, a)) && Evolves(w, Next(w, a))
  {
    match a
    case StartSaga(wk, o) => StartSagaKeeps(w, wk, o);
    case HandleEvent(wk, m, recorded) => HandleEventKeeps(w, wk, m, recorded);
    case Publish(wk) => PublishKeeps(w, wk);
    case Crash(wk) => FinishKeeps(w, wk);
    case ListSagas(wk, status, listing) => ListSagasKeeps(w, wk, status, listing);
    case ResendNext(wk, delivered) => ResendNextKeeps(w, wk, delivered);
  }

  lemma WorkerServiceKeeps(w: World, a: Action)
    requires Inv(w) && a.Worker().Some? && !OfOrderService(a)
    ensures Inv(Next(w, a)) && Evolves(w, Next(w, a))
  {
    match a
    case BeginReserve(wk, m) => BeginReserveKeeps(w, wk, m);
    case ReadStock(wk) => ReadStockKeeps(w, wk);
    case CasReserve(wk) => CasReserveKeeps(w, wk);
    case BeginRelease(wk, m) => BeginReleaseKeeps(w, wk, m);
    case CommitRelease(wk, fault, text) => CommitReleaseKeeps(w, wk, fault, text);
    case BeginPayment(wk, m) => BeginPaymentKeeps(w, wk, m);
    case LookupPayment(wk) => LookupPaymentKeeps(w, wk);
    case InsertPayment(wk, declined) => InsertPaymentKeeps(w, wk, declined);
  }

  lemma StepKeeps(w: World, a: Action)
    requires Inv(w)
    ensures Inv(Next(w, a)) && Evolves(w, Next(w, a))
  {
    if a.Worker().None? {
      EnvironmentKeeps(w, a);
    } else if OfOrderService(a) {
      OrderServiceKeeps(w, a);
    } else {
      WorkerServiceKeeps(w, a);
    }
  }

  lemma InitOk(maxRetries: nat)
    ensures Inv(Init(maxRetries))
  {
    var w := Init(maxRetries);
    forall o: OrderId ensures Abs(w, o) == Txn(Unstarted, NotHeld, NoPayment) {
    }
  }
}
