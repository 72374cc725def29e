/** What the saga and payment rows record: the right amount, the last event, the last error. */
module Audit {
  import opened SagaTypes
  import opened Protocol
  import opened Invariant
  import opened Preservation
  import opened Accounting
  import opened StockSafety
  import opened Safety

  /** A decided payment is for the total of its order. */
  ghost predicate AmountsOk(w: World) {
    forall o :: o in w.pay.payments && w.pay.payments[o].status != PaymentPending ==>
      o in w.db.orders && w.pay.payments[o].amount == w.db.orders[o].totalAmount
  }

  /** A row names the event that moved it last, and has an error only if something failed. */
  predicate RowRecords(g: SagaState, moved: seq<Uuid>) {
    && g.lastEventId == (if moved == [] then None else Some(moved[|moved| - 1]))
    && |g.lastError| <= MAX_ERROR_LENGTH
    && (g.status == InProgress || g.status == Completed ==> g.lastError == "")
  }

  ghost predicate RowsRecord(w: World) {
    true == (forall s :: s in w.db.sagas ==> s in w.hist && RowRecords(w.db.sagas[s], w.hist[s]))
  }

  lemma AmountsKept(w: World, a: Action)
    requires Consistent(w) && AmountsOk(w)
    ensures AmountsOk(Next(w, a))
  {
    StepConsistent(w, a);
    if a.PostPayment? {
    } else if a.InsertPayment? {
      InsertAmount(w, a.wk, a.declined);
    } else {
      PaymentDbUntouched(w, a);
    }
  }

  lemma InsertAmount(w: World, wk: WorkerId, declined: bool)
    requires Inv(w) && AmountsOk(w)
    ensures AmountsOk(DoInsertPayment(w, wk, declined))
  {
    if wk in w.tasks && w.tasks[wk].PayInsert? {
      assert TaskOk(w, w.tasks[wk]);
      assert Linked(w, w.tasks[wk].cmd.sagaId, w.tasks[wk].cmd.orderId);
    }
  }

  lemma MovedRowRecords(g: SagaState, moved: seq<Uuid>, m: Message)
    requires RowRecords(g, moved) && Awaits(g, m.body)
    requires g.step == ReservingInventory || g.step == ProcessingPayment ==> g.status == InProgress
    ensures RowRecords(NextRow(g, m), moved + [m.id])
  {
  }

  lemma RecordsKept(w: World, a: Action)
    requires Consistent(w) && RowsRecord(w)
    ensures RowsRecord(Next(w, a))
  {
    if Moving(w, a) {
      MovingRecords(w, a);
    } else if a.StartSaga? {
      StartRecords(w, a.wk, a.o);
    } else if !a.CreateOrder? {
      OrderDbUntouched(w, a);
    }
  }

  lemma MovingRecords(w: World, a: Action)
    requires Consistent(w) && RowsRecord(w) && Moving(w, a)
    ensures RowsRecord(Next(w, a))
  {
    MoveOfAction(w, a);
    assert Backed(w, a.m.body);
    ReactMeaning(w, a.m);
    var g := w.db.sagas[a.m.body.sagaId];
    assert RowOk(g, w.db.orders[g.orderId].status, Moves(w, a.m.body.sagaId));
    MovedRowRecords(g, w.hist[a.m.body.sagaId], a.m);
  }

  lemma StartRecords(w: World, wk: WorkerId, o: OrderId)
    requires Inv(w) && RowsRecord(w)
    ensures RowsRecord(DoStartSaga(w, wk, o))
  {
    assert w.nextId !in w.db.sagas;
  }

  lemma {:induction false} RunRecords(w: World, actions: seq<Action>)
    requires Consistent(w) && AmountsOk(w) && RowsRecord(w)
    ensures AmountsOk(Exec(w, actions)) && RowsRecord(Exec(w, actions))
    decreases |actions|
  {
    if actions != [] {
      var before := actions[..|actions| - 1];
      RunRecords(w, before);
      RunConsistent(w, before);
      AmountsKept(Exec(w, before), actions[|actions| - 1]);
      RecordsKept(Exec(w, before), actions[|actions| - 1]);
    }
  }

  /** A completed saga was charged exactly the total of its order. */
  lemma ChargedTheTotal(maxRetries: nat, actions: seq<Action>, o: OrderId)
    requires Paid(Exec(Init(maxRetries), actions), o)
    ensures var w := Exec(Init(maxRetries), actions);
            o in w.db.orders && w.pay.payments[o].amount == w.db.orders[o].totalAmount
  {
    EveryRun(maxRetries, []);
    RunRecords(Init(maxRetries), actions);
  }

  lemma {:induction false} RowsTellTheStory(maxRetries: nat, actions: seq<Action>, s: Uuid)
    requires s in Exec(Init(maxRetries), actions).db.sagas
    ensures var w := Exec(Init(maxRetries), actions); s in w.hist && RowRecords(w.db.sagas[s], w.hist[s])
  {
    EveryRun(maxRetries, []);
    RunRecords(Init(maxRetries), actions);
  }
}
