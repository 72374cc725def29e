/** What holds in every run, stated on the tables and messages themselves. */
module Safety {
  import opened SagaTypes
  import opened OrderDatabase
  import opened InventoryDatabase
  import opened Protocol
  import opened OrderTransaction
  import opened Invariant
  import opened Preservation
  import opened Accounting
  import opened StockLedger
  import opened StockSafety

  // ---------------------------------------------------------------- refinement

  /** A run of the atomic machine, stutters allowed. */
  ghost predicate AtomicRun(ts: seq<Txn>) {
    && |ts| > 0 && ts[0] == Txn(Unstarted, NotHeld, NoPayment)
    && (forall i :: 0 <= i < |ts| ==> TxnOk(ts[i]))
    && (forall i :: 0 < i < |ts| ==> TxnStutterOrStep(ts[i - 1], ts[i]))
  }

  ghost function OrderHistory(w: World, actions: seq<Action>, o: OrderId): seq<Txn> {
    seq(|actions| + 1, i requires 0 <= i <= |actions| => Abs(Exec(w, actions[..i]), o))
  }

  /** One step of the three services is one atomic step of the order, or none. */
  lemma StepRefines(maxRetries: nat, actions: seq<Action>, o: OrderId, i: nat)
    requires i < |actions|
    ensures TxnStutterOrStep(Abs(Exec(Init(maxRetries), actions[..i]), o), Abs(Exec(Init(maxRetries), actions[..i + 1]), o))
  {
    EveryRun(maxRetries, actions[..i]);
    ExecStep(Init(maxRetries), actions, i);
    StepConsistent(Exec(Init(maxRetries), actions[..i]), actions[i]);
  }

  lemma AlwaysAllowed(maxRetries: nat, actions: seq<Action>, o: OrderId)
    ensures TxnOk(Abs(Exec(Init(maxRetries), actions), o))
  {
    EveryRun(maxRetries, actions);
  }

  /** Refinement: seen from any order, every run of the three services is a run of one atomic record. */
  lemma RefinesAtomicOrder(maxRetries: nat, actions: seq<Action>, o: OrderId)
    ensures AtomicRun(OrderHistory(Init(maxRetries), actions, o))
  {
    assert actions[..0] == [];
    forall i | 0 <= i <= |actions| {
      AlwaysAllowed(maxRetries, actions[..i], o);
    }
    forall i | 0 <= i < |actions| {
      StepRefines(maxRetries, actions, o, i);
    }
    var ts := OrderHistory(Init(maxRetries), actions, o);
    forall i | 0 < i < |ts| ensures TxnStutterOrStep(ts[i - 1], ts[i]) {
      var k := i - 1;
      assert ts[k] == Abs(Exec(Init(maxRetries), actions[..k]), o);
      assert ts[k + 1] == Abs(Exec(Init(maxRetries), actions[..k + 1]), o);
    }
  }

  // ---------------------------------------------------------------- money and stock

  predicate Paid(w: World, o: OrderId) {
    o in w.pay.payments && w.pay.payments[o].status == PaymentSuccess
  }

  predicate HasReserve(w: World, o: OrderId) { HasLog(w.inv.logs, o, Reserve) }

  predicate HasRelease(w: World, o: OrderId) { HasLog(w.inv.logs, o, Release) }

  lemma SagaFacts(w: World, s: Uuid)
    requires Consistent(w) && s in w.db.sagas
    ensures var o := w.db.sagas[s].orderId;
            && o in w.db.orders && RowOk(w.db.sagas[s], w.db.orders[o].status, Moves(w, s))
            && OrderPhase(w, o) == PhaseOf(w.db.sagas[s], Moves(w, s))
            && TxnOk(Abs(w, o))
            && (HasRelease(w, o) ==> HasReserve(w, o))
  {
    RankOfPhase(w, s);
    assert TxnOk(Abs(w, w.db.sagas[s].orderId));
  }

  /** The three databases agree on every saga, although no transaction spans two of them. */
  lemma {:induction false} MoneyAndStockAgree(maxRetries: nat, actions: seq<Action>, s: Uuid)
    requires s in Exec(Init(maxRetries), actions).db.sagas
    ensures var w := Exec(Init(maxRetries), actions);
            var g := w.db.sagas[s];
            var o := g.orderId;
            && o in w.db.orders
            && (Paid(w, o) ==> g.step == ProcessingPayment || g.status == Completed)
            && (g.step == ProcessingPayment ==> HasReserve(w, o) && !HasRelease(w, o))
            && (g.status == Completed ==>
                  w.db.orders[o].status == Confirmed && Paid(w, o) && HasReserve(w, o) && !HasRelease(w, o))
            && (g.status == SagaCompensated ==>
                  w.db.orders[o].status == OrderCompensated && HasReserve(w, o) && HasRelease(w, o)
                  && o in w.pay.payments && !Paid(w, o))
            && (g.status == SagaFailed ==> w.db.orders[o].status == OrderFailed && !Paid(w, o))
            && (HasRelease(w, o) ==>
                  HasReserve(w, o) && o in w.pay.payments && !Paid(w, o)
                  && (g.status == Compensating || g.status == SagaCompensated || g.status == SagaFailed))
  {
    EveryRun(maxRetries, actions);
    SagaFacts(Exec(Init(maxRetries), actions), s);
  }

  /** Nothing is charged or reserved for an order that has no saga. */
  lemma {:induction false} NoSagaNoEffect(maxRetries: nat, actions: seq<Action>, o: OrderId)
    requires o !in Exec(Init(maxRetries), actions).db.byOrder
    ensures var w := Exec(Init(maxRetries), actions); !Paid(w, o) && !HasReserve(w, o) && !HasRelease(w, o)
  {
    EveryRun(maxRetries, actions);
    assert TxnOk(Abs(Exec(Init(maxRetries), actions), o));
  }

  /** The six combinations of step, saga status and order status; FAILED has one or three moves. */
  lemma {:induction false} SagaLifecycle(maxRetries: nat, actions: seq<Action>, s: Uuid)
    requires s in Exec(Init(maxRetries), actions).db.sagas
    ensures var w := Exec(Init(maxRetries), actions);
            var g := w.db.sagas[s];
            g.orderId in w.db.orders && s in w.hist
            && RowOk(g, w.db.orders[g.orderId].status, |w.hist[s]|)
  {
    EveryRun(maxRetries, actions);
    SagaFacts(Exec(Init(maxRetries), actions), s);
  }

  // ---------------------------------------------------------------- stock

  /** No oversell, conservation, and the version counts the log entries, under every interleaving. */
  lemma {:induction false} StockConserved(maxRetries: nat, actions: seq<Action>, p: ProductId)
    requires p in Exec(Init(maxRetries), actions).inv.rows
    ensures var w := Exec(Init(maxRetries), actions);
            && p in w.supplied
            && w.inv.rows[p].available >= 0
            && w.inv.rows[p].reserved >= 0
            && w.inv.rows[p].available + w.inv.rows[p].reserved == w.supplied[p]
            && w.inv.rows[p].reserved == HeldQuantity(w.inv.logs, p)
            && w.inv.rows[p].version == EntriesOf(w.inv.logs, p)
  {
    EveryRun(maxRetries, actions);
    var w := Exec(Init(maxRetries), actions);
    assert RowFollows(w.inv, w.supplied, p);
    HeldNonNegative(w.inv.logs, w.inv.logs, p);
  }

  /** Each order reserves at most once and releases at most once, and every release undoes an earlier
      reservation of the same order, product and quantity. */
  lemma AtMostOnceStockEffect(maxRetries: nat, actions: seq<Action>)
    ensures var logs := Exec(Init(maxRetries), actions).inv.logs;
            && (forall i, j :: 0 <= i < j < |logs| ==> logs[i].orderId != logs[j].orderId || logs[i].action != logs[j].action)
            && (forall j :: 0 <= j < |logs| && logs[j].action == Release ==>
                  exists i :: 0 <= i < j && logs[i] == logs[j].(action := Reserve))
  {
    EveryRun(maxRetries, actions);
    var logs := Exec(Init(maxRetries), actions).inv.logs;
    forall j | 0 <= j < |logs| && logs[j].action == Release
      ensures exists i :: 0 <= i < j && logs[i] == logs[j].(action := Reserve)
    {
      assert Undoes(logs, j);
      var i :| 0 <= i < |logs[..j]| && logs[..j][i] == logs[j].(action := Reserve);
      assert logs[i] == logs[j].(action := Reserve);
    }
  }

  /** Wherever a release commits, GREATEST(reserved_qty - q, 0) is plain subtraction. */
  lemma ClampNeverActs(maxRetries: nat, actions: seq<Action>, wk: WorkerId)
    requires var w := Exec(Init(maxRetries), actions);
             wk in w.tasks && w.tasks[wk].ReleaseTxn? && w.tasks[wk].cmd.ReleaseInventoryCmd?
    ensures var w := Exec(Init(maxRetries), actions);
            var cmd := w.tasks[wk].cmd;
            var tx := ReleaseTx(w.inv, cmd.productId, cmd.orderId, cmd.quantity);
            tx.Applied? ==>
              && w.inv.rows[cmd.productId].reserved >= cmd.quantity
              && tx.db.rows[cmd.productId].reserved == w.inv.rows[cmd.productId].reserved - cmd.quantity
  {
    EveryRun(maxRetries, actions);
    var w := Exec(Init(maxRetries), actions);
    var cmd := w.tasks[wk].cmd;
    assert TaskOk(w, w.tasks[wk]);
    if ReleaseTx(w.inv, cmd.productId, cmd.orderId, cmd.quantity).Applied? {
      ReleaseHasReserve(w, cmd);
      ReleaseKeeps(w.inv, w.supplied, cmd.productId, cmd.orderId, cmd.quantity);
    }
  }

  // ---------------------------------------------------------------- messages

  /** The durable facts that justify a message. */
  ghost predicate Justified(w: World, b: Payload) {
    true == (
      && b.sagaId in w.db.sagas && w.db.sagas[b.sagaId].orderId == b.orderId && b.orderId in w.db.orders
      && var o, ord := b.orderId, w.db.orders[b.orderId];
         match b
         case ReserveInventoryCmd(_, _, p, q) => p == ord.productId && q == ord.quantity
         case ProcessPaymentCmd(_, _, amount) =>
           amount == ord.totalAmount && InventoryLog(ord.productId, o, Reserve, ord.quantity) in w.inv.logs
         case ReleaseInventoryCmd(_, _, p, q) =>
           p == ord.productId && q == ord.quantity && o in w.pay.payments && !Paid(w, o)
           && InventoryLog(p, o, Reserve, q) in w.inv.logs
         case InventoryReservedEvent(_, _, p, q, ok, _) =>
           p == ord.productId && q == ord.quantity && (ok ==> InventoryLog(p, o, Reserve, q) in w.inv.logs)
         case PaymentProcessedEvent(_, _, tx, ok, _) =>
           o in w.pay.payments && w.pay.payments[o].transactionId == tx && (ok <==> Paid(w, o))
         case InventoryReleasedEvent(_, _, p, q, ok, _) =>
           p == ord.productId && q == ord.quantity && (ok ==> InventoryLog(p, o, Release, q) in w.inv.logs))
  }

  lemma LoggedGoods(w: World, o: OrderId, action: LogAction)
    requires LogsMatch(w) && HasLog(w.inv.logs, o, action)
    ensures o in w.db.orders && InventoryLog(w.db.orders[o].productId, o, action, w.db.orders[o].quantity) in w.inv.logs
  {
    var e :| e in w.inv.logs && e.orderId == o && e.action == action;
  }

  lemma BackedIsJustified(w: World, b: Payload)
    requires Inv(w) && Backed(w, b)
    ensures Justified(w, b)
  {
    assert TxnOk(Abs(w, b.orderId));
    if HasLog(w.inv.logs, b.orderId, Reserve) { LoggedGoods(w, b.orderId, Reserve); }
    if HasLog(w.inv.logs, b.orderId, Release) { LoggedGoods(w, b.orderId, Release); }
  }

  /** Every message ever published rests on facts that some database still holds. */
  lemma CausalJustification(maxRetries: nat, actions: seq<Action>, m: Message)
    requires m in Exec(Init(maxRetries), actions).net
    ensures Justified(Exec(Init(maxRetries), actions), m.body)
  {
    EveryRun(maxRetries, actions);
    BackedIsJustified(Exec(Init(maxRetries), actions), m.body);
  }

  /** All payment events of an order are the same event, whoever sent them. */
  lemma PaymentUnanimity(maxRetries: nat, actions: seq<Action>, m: Message, n: Message)
    requires m in Exec(Init(maxRetries), actions).net && n in Exec(Init(maxRetries), actions).net
    requires m.body.PaymentProcessedEvent? && n.body.PaymentProcessedEvent? && m.body.orderId == n.body.orderId
    ensures m.body == n.body
  {
    EveryRun(maxRetries, actions);
    var w := Exec(Init(maxRetries), actions);
    assert Backed(w, m.body) && Backed(w, n.body);
  }

  /** Recovery sends what the normal path sends: commands of one kind for one saga are equal. */
  lemma {:induction false} RecoveryFaithful(maxRetries: nat, actions: seq<Action>, m: Message, n: Message)
    requires m in Exec(Init(maxRetries), actions).net && n in Exec(Init(maxRetries), actions).net
    requires m.body.sagaId == n.body.sagaId
    requires || (m.body.ReserveInventoryCmd? && n.body.ReserveInventoryCmd?)
             || (m.body.ProcessPaymentCmd? && n.body.ProcessPaymentCmd?)
             || (m.body.ReleaseInventoryCmd? && n.body.ReleaseInventoryCmd?)
    ensures m.body == n.body
  {
    EveryRun(maxRetries, actions);
    var w := Exec(Init(maxRetries), actions);
    assert Backed(w, m.body) && Backed(w, n.body);
    assert Linked(w, m.body.sagaId, m.body.orderId) && Linked(w, n.body.sagaId, n.body.orderId);
    assert w.db.sagas[m.body.sagaId].orderId == m.body.orderId;
  }

  // ---------------------------------------------------------------- events and their effect

  /** Event id moved saga s, and no other. */
  ghost predicate MovedOnly(w: World, s: Uuid, id: Uuid) {
    && MovedBy(w, s, id)
    && (forall s' :: s' in w.hist && id in w.hist[s'] ==> s' == s)
  }

  lemma MovedOnce(w: World, s: Uuid, id: Uuid)
    requires NetIds(w) && Accounted(w) && s in w.hist && id in w.hist[s]
    ensures id in w.db.processed && MovedOnly(w, s, id)
  {
    forall s' | s' in w.hist && id in w.hist[s'] ensures s' == s {
      assert MovedBy(w, s, id) && MovedBy(w, s', id);
    }
  }

  ghost predicate DedupExact(w: World) {
    && (forall id :: id in w.db.processed ==> exists s :: s in w.hist && id in w.hist[s])
    && (forall s, id :: s in w.hist && id in w.hist[s] ==> id in w.db.processed && MovedOnly(w, s, id))
    && |w.db.processed| == Total(w.hist)
  }

  lemma AccountedIsExact(w: World)
    requires NetIds(w) && Accounted(w)
    ensures DedupExact(w)
  {
    forall s, id | s in w.hist && id in w.hist[s] {
      MovedOnce(w, s, id);
    }
  }

  /** processed_events holds exactly the events that moved a saga, each for one saga, and its size is
      the total number of moves. */
  lemma {:induction false} DedupAccounting(maxRetries: nat, actions: seq<Action>)
    ensures DedupExact(Exec(Init(maxRetries), actions))
  {
    EveryRun(maxRetries, actions);
    AccountedIsExact(Exec(Init(maxRetries), actions));
  }

  /** A delivery changes the order database exactly when its id is new and its saga waits for it. */
  lemma {:induction false} DeliveryMovesIff(w: World, wk: WorkerId, m: Message, recorded: bool)
    requires Consistent(w) && Idle(w, wk) && m in w.net
    ensures m.body.sagaId in w.db.sagas
    ensures DoHandleEvent(w, wk, m, recorded).db != w.db
            <==> m.id !in w.db.processed && Awaits(w.db.sagas[m.body.sagaId], m.body)
    ensures DoHandleEvent(w, wk, m, recorded).db == w.db ==> DoHandleEvent(w, wk, m, recorded) == w
  {
    assert Backed(w, m.body);
    ReactMeaning(w, m);
  }

  /** The terminal metric fires at most once per saga, with the status that the saga row keeps. */
  lemma {:induction false} TerminalOnce(maxRetries: nat, actions: seq<Action>, r: TerminalRecord, r': TerminalRecord)
    requires r in Exec(Init(maxRetries), actions).terminals && r' in Exec(Init(maxRetries), actions).terminals
    requires r.sagaId == r'.sagaId
    ensures var w := Exec(Init(maxRetries), actions);
            && r == r' && w.terminals[r] == 1
            && r.sagaId in w.db.sagas && w.db.sagas[r.sagaId].step == Done && w.db.sagas[r.sagaId].status == r.status
  {
    EveryRun(maxRetries, actions);
  }

  lemma DoneKept(w: World, a: Action, s: Uuid)
    requires Consistent(w) && s in w.db.sagas && w.db.sagas[s].step == Done
    ensures s in Next(w, a).db.sagas && Next(w, a).db.sagas[s] == w.db.sagas[s]
  {
    if Moving(w, a) {
      MoveOfAction(w, a);
    } else {
      HistoryOfAction(w, a);
    }
  }

  /** DONE is absorbing: the whole saga row stays as it is. */
  lemma {:induction false} DoneForever(w: World, actions: seq<Action>, s: Uuid)
    requires Consistent(w) && s in w.db.sagas && w.db.sagas[s].step == Done
    ensures s in Exec(w, actions).db.sagas && Exec(w, actions).db.sagas[s] == w.db.sagas[s]
    decreases |actions|
  {
    if actions != [] {
      var before := actions[..|actions| - 1];
      DoneForever(w, before, s);
      RunConsistent(w, before);
      DoneKept(Exec(w, before), actions[|actions| - 1], s);
    }
  }

  /** No reaction to an event takes away an order, a saga or its index entry, or changes what was ordered. */
  lemma ReactPersists(db: OrderDb, m: Message)
    requires React(db, m).Moved?
    ensures var db' := React(db, m).db;
            && db'.byOrder == db.byOrder
            && (forall o :: o in db.orders ==> o in db'.orders && SameOrder(db.orders[o], db'.orders[o]))
            && (forall s :: s in db.sagas ==> s in db'.sagas && db'.sagas[s].orderId == db.sagas[s].orderId)
  {
  }

  lemma OrderKept(w: World, a: Action, o: OrderId)
    requires o in w.db.orders
    ensures o in Next(w, a).db.orders && SameOrder(w.db.orders[o], Next(w, a).db.orders[o])
  {
    if Moving(w, a) {
      ReactPersists(w.db, a.m);
      EventFields(w, a, React(w.db, a.m));
    } else if !a.CreateOrder? && !a.StartSaga? {
      OrderDbUntouched(w, a);
    }
  }

  /** What an order asks for never changes. */
  lemma {:induction false} OrderFixed(w: World, actions: seq<Action>, o: OrderId)
    requires o in w.db.orders
    ensures o in Exec(w, actions).db.orders && SameOrder(w.db.orders[o], Exec(w, actions).db.orders[o])
    decreases |actions|
  {
    if actions != [] {
      OrderFixed(w, actions[..|actions| - 1], o);
      OrderKept(Exec(w, actions[..|actions| - 1]), actions[|actions| - 1], o);
    }
  }

  ghost predicate SagaOf(w: World, s: Uuid, o: OrderId) {
    s in w.db.sagas && w.db.sagas[s].orderId == o && o in w.db.byOrder && w.db.byOrder[o] == s
  }

  lemma SagaKept(w: World, a: Action, s: Uuid, o: OrderId)
    requires SagaOf(w, s, o)
    ensures SagaOf(Next(w, a), s, o)
  {
    if Moving(w, a) {
      ReactPersists(w.db, a.m);
      EventFields(w, a, React(w.db, a.m));
    } else if !a.CreateOrder? && !a.StartSaga? {
      OrderDbUntouched(w, a);
    }
  }

  /** The saga of an order is there for good. */
  lemma {:induction false} SagaFixed(w: World, actions: seq<Action>, s: Uuid, o: OrderId)
    requires SagaOf(w, s, o)
    ensures SagaOf(Exec(w, actions), s, o)
    decreases |actions|
  {
    if actions != [] {
      SagaFixed(w, actions[..|actions| - 1], s, o);
      SagaKept(Exec(w, actions[..|actions| - 1]), actions[|actions| - 1], s, o);
    }
  }

  lemma PaymentKept(w: World, a: Action, o: OrderId, id: Uuid)
    ensures o in w.pay.payments ==> o in Next(w, a).pay.payments && Next(w, a).pay.payments[o] == w.pay.payments[o]
    ensures id in w.pay.processed ==> id in Next(w, a).pay.processed
  {
    if !a.PostPayment? && !a.InsertPayment? {
      PaymentDbUntouched(w, a);
    }
  }

  /** A payment row, once there, never changes; a processed mark is never removed. */
  lemma {:induction false} PaymentFixed(w: World, actions: seq<Action>, o: OrderId, id: Uuid)
    ensures o in w.pay.payments ==>
              o in Exec(w, actions).pay.payments && Exec(w, actions).pay.payments[o] == w.pay.payments[o]
    ensures id in w.pay.processed ==> id in Exec(w, actions).pay.processed
    decreases |actions|
  {
    if actions != [] {
      PaymentFixed(w, actions[..|actions| - 1], o, id);
      PaymentKept(Exec(w, actions[..|actions| - 1]), actions[|actions| - 1], o, id);
    }
  }
}
