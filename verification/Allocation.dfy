/** Exact allocation: with stock for S / q orders of quantity q, exactly that many of them, or all if
    they are fewer, obtain stock, whatever the interleaving and duplication. */
module Allocation {
  import opened SagaTypes
  import opened InventoryDatabase
  import opened Protocol
  import opened Invariant
  import opened Preservation
  import opened Accounting
  import opened StockLedger
  import opened StockSafety
  import opened OptimisticLock

  /** The sale of product p: initial stock and the one quantity that every order asks for. */
  datatype Sale = Sale(p: ProductId, stock: nat, q: int)

  /** All orders of the product ask for the same quantity, and none of its stock has been returned. */
  ghost predicate Uniform(w: World, sale: Sale) {
    true == (
      && sale.q >= 1
      && (forall o :: o in w.db.orders && w.db.orders[o].productId == sale.p ==> w.db.orders[o].quantity == sale.q)
      && (forall e :: e in w.inv.logs && e.productId == sale.p ==> e.action == Reserve))
  }

  predicate Refusal(b: Payload, sale: Sale) {
    b.InventoryReservedEvent? && b.productId == sale.p && !b.success
  }

  ghost predicate TaskFits(t: Task, row: Inventory, sale: Sale) {
    match t
    case Pub(b) => Refusal(b, sale) ==> row.available < sale.q
    case ReserveLoop(cmd, attempt) =>
      cmd.ReserveInventoryCmd? && cmd.productId == sale.p ==> attempt <= row.version
    case ReserveCas(cmd, attempt, version) =>
      cmd.ReserveInventoryCmd? && cmd.productId == sale.p ==>
        attempt <= version <= row.version && (version == row.version ==> row.available >= sale.q)
    case _ => true
  }

  /** The row counts its reservations, no attempt runs ahead of the version, and a refusal is sent only
      when less than one order's quantity is left. */
  ghost predicate SaleOk(w: World, sale: Sale) {
    true == (
      && sale.p in w.inv.rows
      && w.inv.rows[sale.p].available >= 0
      && w.inv.rows[sale.p].available + sale.q * w.inv.rows[sale.p].version == sale.stock
      && (forall wk :: wk in w.tasks ==> TaskFits(w.tasks[wk], w.inv.rows[sale.p], sale))
      && (forall m :: m in w.net && Refusal(m.body, sale) ==> w.inv.rows[sale.p].available < sale.q))
  }

  // ---------------------------------------------------------------- arithmetic

  lemma Multiples(q: int, k: int, n: int)
    requires q >= 1 && k >= n + 1
    ensures q * k >= q * n + q
  {
    assert q * k == q * (k - n - 1) + q * n + q;
  }

  lemma QuotientUnique(stock: nat, q: int, k: int, rest: int)
    requires q >= 1 && stock == rest + q * k && 0 <= rest < q
    ensures k == stock / q
  {
    var d := stock / q;
    assert stock == q * d + stock % q;
    if k > d {
      Multiples(q, k, d);
    } else if k < d {
      Multiples(q, d, k);
    }
  }

  /** Once the version has reached stock / q, less than q is left. */
  lemma SoldOut(stock: nat, q: int, version: int, available: int)
    requires q >= 1 && stock == available + q * version && version >= stock / q
    ensures available < q
  {
    assert stock == q * (stock / q) + stock % q;
    if version > stock / q {
      Multiples(q, version, stock / q);
    }
  }

  lemma AtMostQuotient(stock: nat, q: int, k: int)
    requires q >= 1 && q * k <= stock
    ensures k <= stock / q
  {
    assert stock == q * (stock / q) + stock % q;
    if k > stock / q {
      Multiples(q, k, stock / q);
    }
  }

  // ---------------------------------------------------------------- one step

  /** Steps that leave the row alone and add only tasks and messages that fit. */
  lemma RowUntouched(w: World, w': World, sale: Sale)
    requires SaleOk(w, sale) && sale.p in w'.inv.rows && w'.inv.rows[sale.p] == w.inv.rows[sale.p]
    requires forall wk :: wk in w'.tasks && !(wk in w.tasks && w.tasks[wk] == w'.tasks[wk]) ==>
               TaskFits(w'.tasks[wk], w.inv.rows[sale.p], sale)
    requires forall m :: m in w'.net && m !in w.net && Refusal(m.body, sale) ==> w.inv.rows[sale.p].available < sale.q
    ensures SaleOk(w', sale)
  {
  }

  lemma SentFits(w: World, a: Action, sale: Sale)
    requires SaleOk(w, sale) && Sent(w, a).Some? && Refusal(Sent(w, a).value, sale)
    ensures w.inv.rows[sale.p].available < sale.q
  {
    assert a.Publish? && TaskFits(w.tasks[a.wk], w.inv.rows[sale.p], sale);
  }

  lemma OrderServiceTask(w: World, a: Action, sale: Sale)
    requires OfOrderService(a) && a.wk in Next(w, a).tasks
    ensures var t := Next(w, a).tasks[a.wk];
            (a.wk in w.tasks && w.tasks[a.wk] == t) || t.Recover? || (t.Pub? && !Refusal(t.body, sale))
  {
    if Moving(w, a) {
      FollowUpIsCommand(w, a.m);
    }
  }

  lemma FollowUpIsCommand(w: World, m: Message)
    ensures React(w.db, m).Moved? && React(w.db, m).command.Some? ==> !React(w.db, m).command.value.InventoryReservedEvent?
  {
  }

  lemma OtherTask(w: World, a: Action, sale: Sale)
    requires a.BeginRelease? || a.CommitRelease? || a.BeginPayment? || a.LookupPayment? || a.InsertPayment?
    requires a.wk in Next(w, a).tasks
    ensures var t := Next(w, a).tasks[a.wk];
            (a.wk in w.tasks && w.tasks[a.wk] == t) || t.ReleaseTxn? || t.PayLookup? || t.PayInsert?
            || (t.Pub? && !Refusal(t.body, sale))
  {
  }

  lemma BeginReserveTask(w: World, wk: WorkerId, m: Message, sale: Sale)
    requires SaleOk(w, sale) && Uniform(w, sale) && w.maxRetries >= sale.stock / sale.q
    requires wk in DoBeginReserve(w, wk, m).tasks && w.inv.rows[sale.p].version >= 0
    ensures var t := DoBeginReserve(w, wk, m).tasks[wk];
            (wk in w.tasks && w.tasks[wk] == t) || TaskFits(t, w.inv.rows[sale.p], sale)
  {
    if w.maxRetries == 0 {
      SoldOut(sale.stock, sale.q, w.inv.rows[sale.p].version, w.inv.rows[sale.p].available);
    }
  }

  lemma ReadStockTask(w: World, wk: WorkerId, sale: Sale)
    requires MessagesOk(w) && SaleOk(w, sale) && Uniform(w, sale) && wk in DoReadStock(w, wk).tasks
    ensures TaskFits(DoReadStock(w, wk).tasks[wk], w.inv.rows[sale.p], sale)
  {
    assert wk in w.tasks && TaskFits(w.tasks[wk], w.inv.rows[sale.p], sale) && TaskOk(w, w.tasks[wk]);
  }

  /** A failed compare-and-swap means that the version has moved past the snapshot. */
  lemma CasConflict(w: World, wk: WorkerId, sale: Sale)
    requires MessagesOk(w) && SaleOk(w, sale) && Uniform(w, sale) && w.maxRetries >= sale.stock / sale.q
    requires wk in w.tasks && w.tasks[wk].ReserveCas? && w.tasks[wk].cmd.ReserveInventoryCmd?
    requires var t := w.tasks[wk]; ReserveTx(w.inv, t.cmd.productId, t.cmd.orderId, t.version, t.cmd.quantity).NoRow?
    ensures var t := w.tasks[wk];
            TaskFits(LoopOrGiveUp(t.cmd, t.attempt + 1, w.maxRetries), w.inv.rows[sale.p], sale)
  {
    var t, row := w.tasks[wk], w.inv.rows[sale.p];
    assert TaskFits(t, row, sale) && TaskOk(w, t);
    if t.cmd.productId == sale.p {
      assert t.attempt + 1 <= row.version;
      if t.attempt + 1 >= w.maxRetries {
        SoldOut(sale.stock, sale.q, row.version, row.available);
      }
    }
  }

  /** A successful one takes q from the row and bumps its version; nothing else stops fitting. */
  lemma CasApplied(w: World, wk: WorkerId, sale: Sale)
    requires MessagesOk(w) && SaleOk(w, sale) && Uniform(w, sale)
    requires wk in w.tasks && w.tasks[wk].ReserveCas? && w.tasks[wk].cmd.ReserveInventoryCmd?
    requires var t := w.tasks[wk]; ReserveTx(w.inv, t.cmd.productId, t.cmd.orderId, t.version, t.cmd.quantity).Applied?
    ensures SaleOk(DoCasReserve(w, wk), sale)
  {
    var t, w' := w.tasks[wk], DoCasReserve(w, wk);
    assert TaskOk(w, t);
    if t.cmd.productId == sale.p {
      RowSold(w, w', wk, sale);
    } else {
      RowUntouched(w, w', sale);
    }
  }

  lemma RowSold(w: World, w': World, wk: WorkerId, sale: Sale)
    requires SaleOk(w, sale) && sale.q >= 1 && w'.net == w.net
    requires sale.p in w'.inv.rows
    requires var r, r' := w.inv.rows[sale.p], w'.inv.rows[sale.p];
             r'.available == r.available - sale.q && r'.available >= 0 && r'.version == r.version + 1
    requires forall x :: x in w'.tasks && x != wk ==> x in w.tasks && w.tasks[x] == w'.tasks[x]
    requires wk in w'.tasks ==> w'.tasks[wk].Pub? && !Refusal(w'.tasks[wk].body, sale)
    ensures SaleOk(w', sale)
  {
    var r, r' := w.inv.rows[sale.p], w'.inv.rows[sale.p];
    assert sale.q * r'.version == sale.q * r.version + sale.q;
    forall x | x in w'.tasks ensures TaskFits(w'.tasks[x], r', sale) {
      assert x != wk ==> TaskFits(w.tasks[x], r, sale);
    }
  }

  /** The worker that acts ends up with a fitting task or with the one it had. */
  ghost predicate OwnTaskFits(w: World, a: Action, sale: Sale)
    requires sale.p in w.inv.rows
  {
    a.Worker().Some? && a.wk in Next(w, a).tasks && !(a.wk in w.tasks && w.tasks[a.wk] == Next(w, a).tasks[a.wk]) ==>
      TaskFits(Next(w, a).tasks[a.wk], w.inv.rows[sale.p], sale)
  }

  lemma RowUntouchedStep(w: World, a: Action, sale: Sale)
    requires SaleOk(w, sale) && OwnTaskFits(w, a, sale)
    requires sale.p in Next(w, a).inv.rows && Next(w, a).inv.rows[sale.p] == w.inv.rows[sale.p]
    ensures SaleOk(Next(w, a), sale)
  {
    var w' := Next(w, a);
    forall wk | wk in w'.tasks && !(wk in w.tasks && w.tasks[wk] == w'.tasks[wk])
      ensures TaskFits(w'.tasks[wk], w.inv.rows[sale.p], sale)
    {
      if a.Worker() != Some(wk) {
        OtherTasksKept(w, a, wk);
      }
    }
    NetOfAction(w, a);
    if Sent(w, a).Some? && Refusal(Sent(w, a).value, sale) {
      SentFits(w, a, sale);
    }
    RowUntouched(w, w', sale);
  }

  lemma CasKept(w: World, wk: WorkerId, sale: Sale)
    requires MessagesOk(w) && SaleOk(w, sale) && Uniform(w, sale) && w.maxRetries >= sale.stock / sale.q
    ensures SaleOk(DoCasReserve(w, wk), sale)
  {
    if wk in w.tasks && w.tasks[wk].ReserveCas? && w.tasks[wk].cmd.ReserveInventoryCmd? {
      var t := w.tasks[wk];
      match ReserveTx(w.inv, t.cmd.productId, t.cmd.orderId, t.version, t.cmd.quantity)
      case NoRow =>
        CasConflict(w, wk, sale);
        RowUntouched(w, DoCasReserve(w, wk), sale);
      case DuplicateLog => RowUntouched(w, DoCasReserve(w, wk), sale);
      case Applied(_) => CasApplied(w, wk, sale);
    }
  }

  /** Without returns the row of p is not touched by a release. */
  lemma ReleaseElsewhere(w: World, wk: WorkerId, fault: bool, errorText: string, sale: Sale)
    requires Uniform(DoCommitRelease(w, wk, fault, errorText), sale) && sale.p in w.inv.rows
    ensures var w' := DoCommitRelease(w, wk, fault, errorText);
            sale.p in w'.inv.rows && w'.inv.rows[sale.p] == w.inv.rows[sale.p]
  {
    if wk in w.tasks && w.tasks[wk].ReleaseTxn? && w.tasks[wk].cmd.ReleaseInventoryCmd? && !fault {
      var cmd := w.tasks[wk].cmd;
      if ReleaseTx(w.inv, cmd.productId, cmd.orderId, cmd.quantity).Applied? {
        assert InventoryLog(cmd.productId, cmd.orderId, Release, cmd.quantity)
            in DoCommitRelease(w, wk, fault, errorText).inv.logs;
      }
    }
  }

  lemma RowOfAction(w: World, a: Action, sale: Sale)
    requires sale.p in w.inv.rows && !a.CasReserve? && !(a.AdminPut? && a.p == sale.p) && Uniform(Next(w, a), sale)
    ensures sale.p in Next(w, a).inv.rows && Next(w, a).inv.rows[sale.p] == w.inv.rows[sale.p]
  {
    if a.CommitRelease? {
      ReleaseElsewhere(w, a.wk, a.fault, a.errorText, sale);
    } else if !a.CreateSku? && !a.AdminPut? {
      InventoryUntouched(w, a);
    }
  }

  lemma OwnTask(w: World, a: Action, sale: Sale)
    requires Consistent(w) && SaleOk(w, sale) && Uniform(w, sale) && w.maxRetries >= sale.stock / sale.q && !a.CasReserve?
    ensures OwnTaskFits(w, a, sale)
  {
    if a.Worker().Some? && a.wk in Next(w, a).tasks {
      if OfOrderService(a) {
        OrderServiceTask(w, a, sale);
      } else if a.BeginReserve? {
        assert RowFollows(w.inv, w.supplied, sale.p);
        BeginReserveTask(w, a.wk, a.m, sale);
      } else if a.ReadStock? {
        ReadStockTask(w, a.wk, sale);
      } else {
        OtherTask(w, a, sale);
      }
    }
  }

  lemma SaleKept(w: World, a: Action, sale: Sale)
    requires Consistent(w) && SaleOk(w, sale) && Uniform(w, sale) && Uniform(Next(w, a), sale)
    requires w.maxRetries >= sale.stock / sale.q && !(a.AdminPut? && a.p == sale.p)
    ensures SaleOk(Next(w, a), sale)
  {
    if a.CasReserve? {
      CasKept(w, a.wk, sale);
    } else {
      RowOfAction(w, a, sale);
      OwnTask(w, a, sale);
      RowUntouchedStep(w, a, sale);
    }
  }

  // ---------------------------------------------------------------- whole runs

  /** Uniformity is judged at the end of the run: orders and logs only accumulate. */
  lemma UniformEarlier(w: World, a: Action, sale: Sale)
    requires Consistent(w) && Uniform(Next(w, a), sale)
    ensures Uniform(w, sale)
  {
    StepConsistent(w, a);
    LogsGrow(w, a);
    UniformShrinks(w, Next(w, a), sale);
  }

  lemma UniformShrinks(w: World, w': World, sale: Sale)
    requires Evolves(w, w') && w.inv.logs <= w'.inv.logs && Uniform(w', sale)
    ensures Uniform(w, sale)
  {
    forall e | e in w.inv.logs && e.productId == sale.p ensures e.action == Reserve {
      assert e in w'.inv.logs;
    }
    forall o | o in w.db.orders && w.db.orders[o].productId == sale.p ensures w.db.orders[o].quantity == sale.q {
      assert SameOrder(w.db.orders[o], w'.db.orders[o]);
    }
  }

  /** The product has just been stocked and nobody has ordered it yet. */
  ghost predicate SaleStart(w: World, sale: Sale) {
    && sale.p in w.inv.rows && w.inv.rows[sale.p] == Inventory(sale.stock, 0, 0)
    && (forall o :: o in w.db.orders ==> w.db.orders[o].productId != sale.p)
  }

  lemma StartFits(w: World, sale: Sale)
    requires Consistent(w) && SaleStart(w, sale)
    ensures SaleOk(w, sale)
  {
    forall m | m in w.net ensures !Refusal(m.body, sale) {
      assert Backed(w, m.body);
    }
    forall wk | wk in w.tasks ensures TaskFits(w.tasks[wk], w.inv.rows[sale.p], sale) {
      assert TaskOk(w, w.tasks[wk]);
    }
  }

  lemma {:induction false} SaleRun(w: World, actions: seq<Action>, sale: Sale)
    requires Consistent(w) && SaleStart(w, sale) && NoAdminPut(actions, sale.p)
    requires Uniform(Exec(w, actions), sale) && w.maxRetries >= sale.stock / sale.q
    ensures SaleOk(Exec(w, actions), sale) && Exec(w, actions).maxRetries == w.maxRetries
    decreases |actions|
  {
    if actions == [] {
      StartFits(w, sale);
    } else {
      var before, last := actions[..|actions| - 1], actions[|actions| - 1];
      assert !(actions[|actions| - 1].AdminPut? && actions[|actions| - 1].p == sale.p);
      assert NoAdminPut(before, sale.p);
      RunConsistent(w, before);
      UniformEarlier(Exec(w, before), last, sale);
      SaleRun(w, before, sale);
      SaleKept(Exec(w, before), last, sale);
      BudgetFixed(Exec(w, before), last);
    }
  }

  // ---------------------------------------------------------------- counting

  ghost function OrdersFor(w: World, p: ProductId): set<OrderId> {
    set o | o in w.db.orders && w.db.orders[o].productId == p
  }

  ghost function Winners(w: World, p: ProductId): set<OrderId> {
    set o | o in OrdersFor(w, p) && HasLog(w.inv.logs, o, Reserve)
  }

  ghost function LoggedOrders(logs: seq<InventoryLog>, p: ProductId): set<OrderId> {
    set e | e in logs && e.productId == p :: e.orderId
  }

  /** With one RESERVE log per order, entries and orders are counted alike. */
  lemma {:induction false} EntriesAreOrders(logs: seq<InventoryLog>, p: ProductId)
    requires UniqueActions(logs) && forall e :: e in logs && e.productId == p ==> e.action == Reserve
    ensures EntriesOf(logs, p) == |LoggedOrders(logs, p)|
  {
    if logs != [] {
      var front, last := logs[..|logs| - 1], logs[|logs| - 1];
      assert logs == front + [last];
      EntriesAreOrders(front, p);
      if last.productId == p {
        forall e | e in front && e.productId == p ensures e.orderId != last.orderId {
          var i :| 0 <= i < |front| && front[i] == e;
          assert logs[i] == e && logs[|logs| - 1] == last && last in logs;
        }
        assert LoggedOrders(logs, p) == LoggedOrders(front, p) + {last.orderId};
      } else {
        assert LoggedOrders(logs, p) == LoggedOrders(front, p);
      }
    } else {
      assert LoggedOrders(logs, p) == {};
    }
  }

  lemma WinnersLogged(w: World, sale: Sale)
    requires LogsMatch(w) && Uniform(w, sale)
    ensures Winners(w, sale.p) == LoggedOrders(w.inv.logs, sale.p)
  {
    forall o | o in Winners(w, sale.p) ensures o in LoggedOrders(w.inv.logs, sale.p) {
      var e :| e in w.inv.logs && e.orderId == o && e.action == Reserve;
      assert e.productId == sale.p;
    }
    forall o | o in LoggedOrders(w.inv.logs, sale.p) ensures o in Winners(w, sale.p) {
      var e :| e in w.inv.logs && e.productId == sale.p && e.orderId == o;
      assert e.action == Reserve;
    }
  }

  lemma WinnersAreVersion(w: World, sale: Sale)
    requires Consistent(w) && Uniform(w, sale) && sale.p in w.inv.rows
    ensures |Winners(w, sale.p)| == w.inv.rows[sale.p].version
  {
    assert RowFollows(w.inv, w.supplied, sale.p);
    WinnersLogged(w, sale);
    EntriesAreOrders(w.inv.logs, sale.p);
  }

  /** Some reply to a reserve command of order o has been published. */
  ghost predicate Answered(w: World, o: OrderId) {
    exists m :: m in w.net && m.body.InventoryReservedEvent? && m.body.orderId == o
  }

  lemma LoserMeansSoldOut(w: World, sale: Sale, o: OrderId)
    requires Consistent(w) && SaleOk(w, sale) && o in OrdersFor(w, sale.p) && Answered(w, o)
    requires !HasLog(w.inv.logs, o, Reserve)
    ensures w.inv.rows[sale.p].available < sale.q
  {
    var m :| m in w.net && m.body.InventoryReservedEvent? && m.body.orderId == o;
    assert Backed(w, m.body);
    assert HasLog(w.inv.logs, o, Release) ==> HasLog(w.inv.logs, o, Reserve);
    assert Refusal(m.body, sale);
  }

  function Min(a: int, b: int): int { if a <= b then a else b }

  lemma CountWinners(w: World, sale: Sale)
    requires Consistent(w) && SaleOk(w, sale) && Uniform(w, sale)
    requires forall o :: o in OrdersFor(w, sale.p) ==> Answered(w, o)
    ensures |Winners(w, sale.p)| == Min(|OrdersFor(w, sale.p)|, sale.stock / sale.q)
  {
    var row, all, won := w.inv.rows[sale.p], OrdersFor(w, sale.p), Winners(w, sale.p);
    WinnersAreVersion(w, sale);
    AtMostQuotient(sale.stock, sale.q, row.version);
    assert won <= all;
    if o :| o in all && o !in won {
      LoserMeansSoldOut(w, sale, o);
      QuotientUnique(sale.stock, sale.q, row.version, row.available);
      assert won <= all - {o};
      SubsetSize(won, all - {o});
    } else {
      assert won == all;
    }
  }

  lemma {:induction false} SubsetSize<T>(a: set<T>, b: set<T>)
    requires a <= b
    ensures |a| <= |b|
  {
    if x :| x in a {
      SubsetSize(a - {x}, b - {x});
    }
  }

  /** Exact allocation, generalising 50 orders on a stock of 10: whatever the interleaving, duplication
      and crashes, once every order has an answer exactly min(N, stock / q) of them hold stock, and the
      rest of the stock is still available. */
  lemma {:induction false} ExactAllocation(w: World, actions: seq<Action>, sale: Sale)
    requires Consistent(w) && SaleStart(w, sale)
    requires NoAdminPut(actions, sale.p) && Uniform(Exec(w, actions), sale) && w.maxRetries >= sale.stock / sale.q
    requires forall o :: o in OrdersFor(Exec(w, actions), sale.p) ==> Answered(Exec(w, actions), o)
    ensures |Winners(Exec(w, actions), sale.p)|
         == Min(|OrdersFor(Exec(w, actions), sale.p)|, sale.stock / sale.q)
    ensures sale.p in Exec(w, actions).inv.rows
    ensures Exec(w, actions).inv.rows[sale.p].available == sale.stock - sale.q * |Winners(Exec(w, actions), sale.p)|
  {
    SaleRun(w, actions, sale);
    RunConsistent(w, actions);
    CountWinners(Exec(w, actions), sale);
    WinnersAreVersion(Exec(w, actions), sale);
  }
}
