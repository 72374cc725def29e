/** A product without an inventory row: its reserve commands are never answered, and its orders never
    leave the first step, however often recovery re-sends. */
module Stalled {
  import opened SagaTypes
  import opened InventoryDatabase
  import opened Protocol
  import opened Invariant
  import opened Preservation
  import opened Accounting
  import opened StockSafety
  import opened Completion
  import opened Safety

  predicate AnswersFor(b: Payload, p: ProductId) {
    b.InventoryReservedEvent? && b.productId == p
  }

  /** A task that is about to touch the row of p, or to answer for it. */
  predicate TaskFor(t: Task, p: ProductId) {
    || (t.Pub? && AnswersFor(t.body, p))
    || (t.ReserveCas? && t.cmd.ReserveInventoryCmd? && t.cmd.productId == p)
  }

  ghost predicate NoLogOf(w: World, p: ProductId) {
    forall e :: e in w.inv.logs ==> e.productId != p
  }

  ghost predicate Unanswered(w: World, p: ProductId) {
    true == (
      && (forall m :: m in w.net ==> !AnswersFor(m.body, p))
      && (forall wk :: wk in w.tasks ==> !TaskFor(w.tasks[wk], p)))
  }

  ghost predicate AllReserving(w: World, p: ProductId) {
    forall s :: s in w.db.sagas && w.db.sagas[s].orderId in w.db.orders
                && w.db.orders[w.db.sagas[s].orderId].productId == p ==>
      w.db.sagas[s].step == ReservingInventory
  }

  ghost predicate Barren(w: World, p: ProductId) {
    true == (NoLogOf(w, p) && Unanswered(w, p) && AllReserving(w, p))
  }

  lemma LogsBarren(w: World, a: Action, p: ProductId)
    requires Barren(w, p) && p !in w.inv.rows
    ensures NoLogOf(Next(w, a), p)
  {
    if !a.CreateSku? && !a.AdminPut? && !a.CasReserve? && !a.CommitRelease? {
      InventoryUntouched(w, a);
    }
  }

  lemma MovingBarren(w: World, a: Action, p: ProductId)
    requires Consistent(w) && Barren(w, p) && Moving(w, a)
    ensures a.m.body.sagaId in w.db.sagas
    ensures w.db.sagas[a.m.body.sagaId].orderId in w.db.orders
    ensures w.db.orders[w.db.sagas[a.m.body.sagaId].orderId].productId != p
  {
    MoveOfAction(w, a);
    assert Backed(w, a.m.body);
    assert !AnswersFor(a.m.body, p);
  }

  lemma SagasBarren(w: World, a: Action, p: ProductId)
    requires Consistent(w) && Barren(w, p)
    ensures AllReserving(Next(w, a), p)
  {
    StepConsistent(w, a);
    if Moving(w, a) {
      MovingBarren(w, a, p);
      MoveOfAction(w, a);
      MovedStaysOut(w, Next(w, a), a.m, p);
    } else if a.CreateOrder? {
      NewOrderStaysOut(w, a, p);
    } else if !a.StartSaga? {
      OrderDbUntouched(w, a);
    }
  }

  lemma MovedStaysOut(w: World, w': World, m: Message, p: ProductId)
    requires Indexed(w.db) && AllReserving(w, p) && Move(w, w', m) && Evolves(w, w')
    requires w.db.orders[w.db.sagas[m.body.sagaId].orderId].productId != p
    ensures AllReserving(w', p)
  {
    assert m.body.sagaId in w.db.sagas;
    assert NextRow(w.db.sagas[m.body.sagaId], m).orderId == w.db.sagas[m.body.sagaId].orderId;
  }

  lemma NewOrderStaysOut(w: World, a: Action, p: ProductId)
    requires Consistent(w) && Barren(w, p) && a.CreateOrder?
    ensures AllReserving(Next(w, a), p)
  {
    assert Next(w, a).db.sagas == w.db.sagas;
    assert forall s :: s in w.db.sagas ==> w.db.sagas[s].orderId in w.db.orders;
  }

  /** An order of p has no RESERVE log, so its command is not taken for a repetition. */
  lemma NotReserved(w: World, cmd: Payload, p: ProductId)
    requires Inv(w) && Backed(w, cmd) && cmd.ReserveInventoryCmd? && cmd.productId == p && NoLogOf(w, p)
    ensures !HasLog(w.inv.logs, cmd.orderId, Reserve)
  {
  }

  lemma OwnTaskBarren(w: World, a: Action, p: ProductId)
    requires Inv(w) && Barren(w, p) && p !in w.inv.rows && w.maxRetries >= 1
    requires a.Worker().Some? && a.wk in Next(w, a).tasks
    ensures !TaskFor(Next(w, a).tasks[a.wk], p)
  {
    if OfOrderService(a) {
      OrderTaskBarren(w, a, p);
    } else if a.BeginReserve? {
      if a.m in w.net && a.m.body.ReserveInventoryCmd? && a.m.body.productId == p {
        assert Backed(w, a.m.body);
        NotReserved(w, a.m.body, p);
      }
    } else if a.ReadStock? || a.CasReserve? {
      ReserveTaskBarren(w, a, p);
    } else {
      OtherTaskBarren(w, a, p);
    }
  }

  lemma OrderTaskBarren(w: World, a: Action, p: ProductId)
    requires Barren(w, p) && OfOrderService(a) && a.wk in Next(w, a).tasks
    ensures !TaskFor(Next(w, a).tasks[a.wk], p)
  {
  }

  lemma ReserveTaskBarren(w: World, a: Action, p: ProductId)
    requires Barren(w, p) && p !in w.inv.rows && (a.ReadStock? || a.CasReserve?) && a.wk in Next(w, a).tasks
    ensures !TaskFor(Next(w, a).tasks[a.wk], p)
  {
  }

  lemma OtherTaskBarren(w: World, a: Action, p: ProductId)
    requires Barren(w, p) && a.Worker().Some? && !OfOrderService(a)
    requires !a.BeginReserve? && !a.ReadStock? && !a.CasReserve? && a.wk in Next(w, a).tasks
    ensures !TaskFor(Next(w, a).tasks[a.wk], p)
  {
  }

  lemma AnswersBarren(w: World, a: Action, p: ProductId)
    requires Inv(w) && Barren(w, p) && p !in w.inv.rows && w.maxRetries >= 1
    ensures Unanswered(Next(w, a), p)
  {
    NetOfAction(w, a);
    forall wk | wk in Next(w, a).tasks ensures !TaskFor(Next(w, a).tasks[wk], p) {
      if a.Worker() == Some(wk) {
        OwnTaskBarren(w, a, p);
      } else {
        OtherTasksKept(w, a, wk);
      }
    }
    assert Sent(w, a).Some? ==> !AnswersFor(Sent(w, a).value, p);
  }

  lemma {:induction false} BarrenKept(w: World, a: Action, p: ProductId)
    requires Consistent(w) && Barren(w, p) && w.maxRetries >= 1 && p !in Next(w, a).inv.rows
    ensures Barren(Next(w, a), p)
  {
    StillPresent(w, a, p);
    LogsBarren(w, a, p);
    AnswersBarren(w, a, p);
    SagasBarren(w, a, p);
  }

  /** What holds of every product that has no row yet. */
  ghost predicate Grounded(w: World) {
    forall p: ProductId :: p !in w.inv.rows ==> Barren(w, p)
  }

  lemma {:induction false} RunGrounded(w: World, actions: seq<Action>)
    requires Consistent(w) && Grounded(w) && w.maxRetries >= 1
    ensures Consistent(Exec(w, actions)) && Grounded(Exec(w, actions)) && Exec(w, actions).maxRetries == w.maxRetries
    decreases |actions|
  {
    if actions != [] {
      var w1, last := Exec(w, actions[..|actions| - 1]), actions[|actions| - 1];
      RunGrounded(w, actions[..|actions| - 1]);
      StepConsistent(w1, last);
      BudgetFixed(w1, last);
      forall p: ProductId | p !in Next(w1, last).inv.rows ensures Barren(Next(w1, last), p) {
        StillPresent(w1, last, p);
        BarrenKept(w1, last, p);
      }
    }
  }

  lemma Reachable(maxRetries: nat, actions: seq<Action>)
    requires maxRetries >= 1
    ensures Grounded(Exec(Init(maxRetries), actions))
  {
    EveryRun(maxRetries, []);
    RunGrounded(Init(maxRetries), actions);
  }

  ghost predicate Finished(w: World, s: Uuid) {
    s in w.db.sagas && w.db.sagas[s].step == Done
  }

  /** A run that leaves it open whether the product has a row. */
  ghost predicate FinishesAsIs(w: World, run: seq<Action>, s: Uuid, p: ProductId) {
    Finished(Exec(w, run), s) && (p in Exec(w, run).inv.rows ==> p in w.inv.rows)
  }

  /** In every reachable world a saga can be brought to its end, without new stock records, if and only if
      its product has a row, or there is no retry budget and every reserve command is refused unread. */
  lemma {:induction false} CanFinishIff(maxRetries: nat, actions: seq<Action>, s: Uuid)
    requires s in Exec(Init(maxRetries), actions).db.sagas
    ensures var w := Exec(Init(maxRetries), actions);
            var o := w.db.sagas[s].orderId;
            && o in w.db.orders
            && var p := w.db.orders[o].productId;
               (exists run :: FinishesAsIs(w, run, s, p)) <==> p in w.inv.rows || maxRetries == 0
  {
    var w := Exec(Init(maxRetries), actions);
    EveryRun(maxRetries, actions);
    RankOfPhase(w, s);
    RunBudget(Init(maxRetries), actions);
    var p := w.db.orders[w.db.sagas[s].orderId].productId;
    if p in w.inv.rows || maxRetries == 0 {
      var run := CanAlwaysFinish(w, s);
      WorkersAddNoRow(w, run, p);
      assert FinishesAsIs(w, run, s, p);
    } else {
      forall run ensures !FinishesAsIs(w, run, s, p) {
        StaysReserving(maxRetries, actions, run, s, p);
      }
    }
  }

  lemma WorkerAddsNoRow(w: World, a: Action, p: ProductId)
    requires a.Worker().Some? && p !in w.inv.rows
    ensures p !in Next(w, a).inv.rows
  {
    if !a.CasReserve? && !a.CommitRelease? {
      InventoryUntouched(w, a);
    }
  }

  lemma {:induction false} WorkersAddNoRow(w: World, run: seq<Action>, p: ProductId)
    requires OnlyWorkers(run)
    ensures p in Exec(w, run).inv.rows ==> p in w.inv.rows
    decreases |run|
  {
    if run != [] && p !in w.inv.rows {
      WorkersAddNoRow(w, run[..|run| - 1], p);
      WorkerAddsNoRow(Exec(w, run[..|run| - 1]), run[|run| - 1], p);
    }
  }

  lemma StaysReserving(maxRetries: nat, actions: seq<Action>, run: seq<Action>, s: Uuid, p: ProductId)
    requires maxRetries >= 1
    requires var w := Exec(Init(maxRetries), actions);
             && s in w.db.sagas && w.db.sagas[s].orderId in w.db.orders
             && w.db.orders[w.db.sagas[s].orderId].productId == p && p !in w.inv.rows
    ensures !FinishesAsIs(Exec(Init(maxRetries), actions), run, s, p)
  {
    var w := Exec(Init(maxRetries), actions);
    EveryRun(maxRetries, actions);
    ExecConcat(Init(maxRetries), actions, run);
    Reachable(maxRetries, actions + run);
    RankOfPhase(w, s);
    OrderFixed(w, run, w.db.sagas[s].orderId);
    SagaFixed(w, run, s, w.db.sagas[s].orderId);
  }
}
