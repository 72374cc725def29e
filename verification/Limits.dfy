/** What the protocol does not guarantee: each failure with the exact condition under which it occurs. */
module Limits {
  import opened SagaTypes
  import opened InventoryDatabase
  import opened Protocol
  import opened OrderTransaction
  import opened Invariant
  import opened Preservation
  import opened Accounting
  import opened StockSafety
  import opened Progress
  import opened Completion
  import Safety

  // ---------------------------------------------------------------- stock held by a rejected order

  /** The saga ended FAILED because a reservation was refused. */
  predicate RejectedSaga(w: World, o: OrderId) {
    OrderPhase(w, o).Rejected?
  }

  predicate HoldsStock(w: World, o: OrderId) {
    HasLog(w.inv.logs, o, Reserve) && !HasLog(w.inv.logs, o, Release)
  }

  /** A refusal that ends the saga leaves stock behind exactly when a twin of the command had already
      written the RESERVE log. */
  lemma {:induction false} RejectionLeavesStockIff(w: World, a: Action)
    requires Consistent(w) && Moving(w, a) && a.m.body.InventoryReservedEvent? && !a.m.body.success
    ensures var w', o := Next(w, a), a.m.body.orderId;
            RejectedSaga(w', o) && (HoldsStock(w', o) <==> HasLog(w.inv.logs, o, Reserve))
  {
    MovedAbs(w, a);
    InventoryUntouched(w, a);
    assert TxnOk(Abs(w, a.m.body.orderId));
  }

  /** After the rejection, stock is taken exactly by a worker whose compare-and-swap on that order succeeds. */
  lemma {:induction false} LateReservationIff(w: World, a: Action, o: OrderId)
    requires Consistent(w) && RejectedSaga(w, o) && !HoldsStock(w, o)
    ensures HoldsStock(Next(w, a), o) <==>
      && a.CasReserve? && a.wk in w.tasks && w.tasks[a.wk].ReserveCas? && w.tasks[a.wk].cmd.orderId == o
      && var t := w.tasks[a.wk];
         && t.cmd.ReserveInventoryCmd? && t.cmd.productId in w.inv.rows
         && w.inv.rows[t.cmd.productId].version == t.version
         && w.inv.rows[t.cmd.productId].available >= t.cmd.quantity
  {
    assert TxnOk(Abs(w, o));
    if a.CasReserve? {
      LateCas(w, a.wk, o);
    } else if a.CommitRelease? {
      LateRelease(w, a.wk, a.fault, a.errorText, o);
    } else if !a.CreateSku? && !a.AdminPut? {
      InventoryUntouched(w, a);
    }
  }

  lemma LateCas(w: World, wk: WorkerId, o: OrderId)
    requires !HasLog(w.inv.logs, o, Reserve) && !HasLog(w.inv.logs, o, Release)
    ensures HoldsStock(DoCasReserve(w, wk), o) <==>
      && wk in w.tasks && w.tasks[wk].ReserveCas? && w.tasks[wk].cmd.orderId == o
      && var t := w.tasks[wk];
         && t.cmd.ReserveInventoryCmd? && t.cmd.productId in w.inv.rows
         && w.inv.rows[t.cmd.productId].version == t.version
         && w.inv.rows[t.cmd.productId].available >= t.cmd.quantity
  {
    if wk in w.tasks && w.tasks[wk].ReserveCas? && w.tasks[wk].cmd.ReserveInventoryCmd? {
      var t := w.tasks[wk];
      var e := InventoryLog(t.cmd.productId, t.cmd.orderId, Reserve, t.cmd.quantity);
      HasLogAppend(w.inv.logs, e, o, Reserve);
      HasLogAppend(w.inv.logs, e, o, Release);
    }
  }

  lemma LateRelease(w: World, wk: WorkerId, fault: bool, errorText: string, o: OrderId)
    requires !HasLog(w.inv.logs, o, Reserve)
    ensures !HasLog(DoCommitRelease(w, wk, fault, errorText).inv.logs, o, Reserve)
  {
    if wk in w.tasks && w.tasks[wk].ReleaseTxn? && w.tasks[wk].cmd.ReleaseInventoryCmd? {
      var cmd := w.tasks[wk].cmd;
      HasLogAppend(w.inv.logs, InventoryLog(cmd.productId, cmd.orderId, Release, cmd.quantity), o, Reserve);
    }
  }

  /** Stock that a rejected order holds is never given back, by recovery or anything else. */
  lemma {:induction false} LeakIsPermanent(w: World, actions: seq<Action>, o: OrderId)
    requires Consistent(w) && RejectedSaga(w, o) && HoldsStock(w, o)
    ensures RejectedSaga(Exec(w, actions), o) && HoldsStock(Exec(w, actions), o)
    decreases |actions|
  {
    if actions != [] {
      var before := actions[..|actions| - 1];
      LeakIsPermanent(w, before, o);
      RunConsistent(w, before);
      StepConsistent(Exec(w, before), actions[|actions| - 1]);
      RejectedHeldKept(Exec(w, before), Exec(w, actions), o);
    }
  }

  lemma RejectedHeldKept(w: World, w': World, o: OrderId)
    requires Evolves(w, w') && RejectedSaga(w, o) && HoldsStock(w, o)
    ensures RejectedSaga(w', o) && HoldsStock(w', o)
  {
    assert TxnStutterOrStep(Abs(w, o), Abs(w', o));
  }

  // ---------------------------------------------------------------- a run that leaks

  /** One reserve command delivered twice, to workers that both pass the log check, on a row with stock
      for one of them. */
  ghost predicate TwinsMeet(w: World, c: Message, x: WorkerId, y: WorkerId) {
    true == (
      && c in w.net && c.body.ReserveInventoryCmd? && Idle(w, x) && Idle(w, y) && x != y
      && OrderPhase(w, c.body.orderId).Reserving? && !HasLog(w.inv.logs, c.body.orderId, Reserve)
      && w.maxRetries >= 1 && c.body.productId in w.inv.rows
      && c.body.quantity <= w.inv.rows[c.body.productId].available < 2 * c.body.quantity)
  }

  function TwinRun(c: Message, x: WorkerId, y: WorkerId): seq<Action> {
    [BeginReserve(x, c), BeginReserve(y, c), ReadStock(y), CasReserve(y), ReadStock(x)]
  }

  /** y reserves; x then finds too little stock for the same order. */
  ghost predicate TwinsMet(w: World, w': World, c: Message, x: WorkerId) {
    true == (
      && w'.db == w.db && w'.hist == w.hist && w'.net == w.net
      && HasLog(w'.inv.logs, c.body.orderId, Reserve)
      && c.body.ReserveInventoryCmd?
      && x in w'.tasks && w'.tasks[x] == Pub(Reserved(c.body, false, INSUFFICIENT_STOCK)))
  }

  lemma TwinsBegin(w: World, c: Message, x: WorkerId, y: WorkerId)
    requires TwinsMeet(w, c, x, y)
    ensures Next(Next(w, BeginReserve(x, c)), BeginReserve(y, c))
         == Assign(Assign(w, x, ReserveLoop(c.body, 0)), y, ReserveLoop(c.body, 0))
  {
  }

  lemma TwinReserves(w: World, c: Message, x: WorkerId, y: WorkerId)
    requires TwinsMeet(w, c, x, y)
    ensures var w2 := Assign(Assign(w, x, ReserveLoop(c.body, 0)), y, ReserveLoop(c.body, 0));
            var w4 := DoCasReserve(DoReadStock(w2, y), y);
            var p := c.body.productId;
            && w4.db == w.db && w4.hist == w.hist && w4.net == w.net
            && w4.inv.logs == w.inv.logs + [InventoryLog(p, c.body.orderId, Reserve, c.body.quantity)]
            && p in w4.inv.rows && w4.inv.rows[p].available < c.body.quantity
            && x in w4.tasks && w4.tasks[x] == ReserveLoop(c.body, 0)
  {
  }

  lemma TwinsRun(w: World, c: Message, x: WorkerId, y: WorkerId)
    requires TwinsMeet(w, c, x, y)
    ensures TwinsMet(w, Exec(w, TwinRun(c, x, y)), c, x)
  {
    TwinsBegin(w, c, x, y);
    Exec2(w, BeginReserve(x, c), BeginReserve(y, c));
    var w2 := Assign(Assign(w, x, ReserveLoop(c.body, 0)), y, ReserveLoop(c.body, 0));
    Exec3(w2, ReadStock(y), CasReserve(y), ReadStock(x));
    TwinRefused(w, c, x, y);
    ExecConcat(w, [BeginReserve(x, c), BeginReserve(y, c)], [ReadStock(y), CasReserve(y), ReadStock(x)]);
    assert TwinRun(c, x, y)
        == [BeginReserve(x, c), BeginReserve(y, c)] + [ReadStock(y), CasReserve(y), ReadStock(x)];
  }

  lemma TwinRefused(w: World, c: Message, x: WorkerId, y: WorkerId)
    requires TwinsMeet(w, c, x, y)
    ensures var w2 := Assign(Assign(w, x, ReserveLoop(c.body, 0)), y, ReserveLoop(c.body, 0));
            TwinsMet(w, DoReadStock(DoCasReserve(DoReadStock(w2, y), y), x), c, x)
  {
    TwinReserves(w, c, x, y);
    HasLogAppend(w.inv.logs, InventoryLog(c.body.productId, c.body.orderId, Reserve, c.body.quantity),
                 c.body.orderId, Reserve);
  }

  /** From every such world seven steps lead to an order that is FAILED and still holds stock. */
  lemma {:induction false} DuplicateReserveLeaks(w: World, c: Message, x: WorkerId, y: WorkerId) returns (run: seq<Action>)
    requires Consistent(w) && TwinsMeet(w, c, x, y)
    ensures run == TwinRun(c, x, y)
                   + [Publish(x), HandleEvent(x, Message(Exec(w, TwinRun(c, x, y)).nextId, Reserved(c.body, false, INSUFFICIENT_STOCK)), true)]
    ensures RejectedSaga(Exec(w, run), c.body.orderId) && HoldsStock(Exec(w, run), c.body.orderId)
  {
    var w5 := Exec(w, TwinRun(c, x, y));
    TwinsRun(w, c, x, y);
    RunConsistent(w, TwinRun(c, x, y));
    var e := Message(w5.nextId, Reserved(c.body, false, INSUFFICIENT_STOCK));
    run := TwinRun(c, x, y) + [Publish(x), HandleEvent(x, e, true)];
    ExecConcat(w, TwinRun(c, x, y), [Publish(x), HandleEvent(x, e, true)]);
    Exec2(w5, Publish(x), HandleEvent(x, e, true));
    StepConsistent(w5, Publish(x));
    RefusalPublished(w, w5, c, x);
    RefusalEnds(Next(w5, Publish(x)), x, e);
  }

  lemma RefusalPublished(w: World, w5: World, c: Message, x: WorkerId)
    requires TwinsMet(w, w5, c, x) && OrderPhase(w, c.body.orderId).Reserving? && c.body.ReserveInventoryCmd?
    ensures var w6 := Next(w5, Publish(x)); var e := Message(w5.nextId, Reserved(c.body, false, INSUFFICIENT_STOCK));
            e in w6.net && Idle(w6, x) && OrderPhase(w6, c.body.orderId).Reserving?
            && HasLog(w6.inv.logs, c.body.orderId, Reserve)
  {
  }

  lemma RefusalEnds(w: World, x: WorkerId, e: Message)
    requires Consistent(w) && e in w.net && Idle(w, x) && e.body.InventoryReservedEvent? && !e.body.success
    requires OrderPhase(w, e.body.orderId).Reserving? && HasLog(w.inv.logs, e.body.orderId, Reserve)
    ensures var w' := Next(w, HandleEvent(x, e, true)); RejectedSaga(w', e.body.orderId) && HoldsStock(w', e.body.orderId)
  {
    WaitingMoves(w, e);
    RejectionLeavesStockIff(w, HandleEvent(x, e, true));
  }

  /** A published event whose rank is that of its order's phase has not been processed and moves the saga. */
  lemma WaitingMoves(w: World, e: Message)
    requires Inv(w) && Accounted(w) && e in w.net && e.body.IsEvent()
    requires !OrderPhase(w, e.body.orderId).Unstarted? && PhaseRank(OrderPhase(w, e.body.orderId)) == EventRank(e.body)
    ensures React(w.db, e).Moved?
  {
    assert Backed(w, e.body);
    EventNotEarly(w, e.body);
    RankOfPhase(w, e.body.sagaId);
    assert e.id in w.db.processed ==> Passed(w, e.body);
    ReactMeaning(w, e);
  }

  // ---------------------------------------------------------------- a release that is reported as failed

  predicate ReleaseReportedFailed(w: World, o: OrderId) {
    OrderPhase(w, o).ReleaseFailed?
  }

  /** A failure reply that ends the saga tells nothing about the stock: it has gone back exactly when the
      RELEASE log had been written by then. */
  lemma FailedReleaseReturnedIff(w: World, a: Action)
    requires Consistent(w) && Moving(w, a) && a.m.body.InventoryReleasedEvent? && !a.m.body.success
    ensures var w', o := Next(w, a), a.m.body.orderId;
            ReleaseReportedFailed(w', o) && (Abs(w', o).stock.Returned? <==> HasLog(w.inv.logs, o, Release))
  {
    MovedAbs(w, a);
    assert TxnOk(Abs(w, a.m.body.orderId));
  }

  /** After a release was reported as failed, the stock goes back at exactly one kind of step: the release
      transaction of a worker that took the command before, if no fault hits it and the product has a row. */
  lemma {:induction false} LateReleaseIff(w: World, a: Action, o: OrderId)
    requires Consistent(w) && ReleaseReportedFailed(w, o) && Abs(w, o).stock.Held?
    ensures Abs(Next(w, a), o).stock.Returned? <==> a.CommitRelease? && !a.fault && MayRelease(w, a.wk, o)
  {
    ReleaseLogged(w, a, o);
  }

  /** A RELEASE log appears at no other step. */
  lemma ReleaseLogged(w: World, a: Action, o: OrderId)
    requires !HasLog(w.inv.logs, o, Release)
    ensures HasLog(Next(w, a).inv.logs, o, Release) <==> a.CommitRelease? && !a.fault && MayRelease(w, a.wk, o)
  {
    if a.CommitRelease? {
      LateCommit(w, a.wk, a.fault, a.errorText, o);
    } else if a.CasReserve? {
      LateSwap(w, a.wk, o);
    } else if !a.CreateSku? && !a.AdminPut? {
      InventoryUntouched(w, a);
    }
  }

  /** Worker wk took a release command of order o before, and the product has a row. */
  predicate MayRelease(w: World, wk: WorkerId, o: OrderId) {
    && wk in w.tasks && w.tasks[wk].ReleaseTxn? && w.tasks[wk].cmd.orderId == o
    && w.tasks[wk].cmd.ReleaseInventoryCmd? && w.tasks[wk].cmd.productId in w.inv.rows
  }

  lemma LateCommit(w: World, wk: WorkerId, fault: bool, errorText: string, o: OrderId)
    requires !HasLog(w.inv.logs, o, Release)
    ensures HasLog(DoCommitRelease(w, wk, fault, errorText).inv.logs, o, Release) <==> !fault && MayRelease(w, wk, o)
  {
    if wk in w.tasks && w.tasks[wk].ReleaseTxn? && w.tasks[wk].cmd.ReleaseInventoryCmd? {
      var cmd := w.tasks[wk].cmd;
      HasLogAppend(w.inv.logs, InventoryLog(cmd.productId, cmd.orderId, Release, cmd.quantity), o, Release);
    }
  }

  lemma LateSwap(w: World, wk: WorkerId, o: OrderId)
    requires !HasLog(w.inv.logs, o, Release)
    ensures !HasLog(DoCasReserve(w, wk).inv.logs, o, Release)
  {
    if wk in w.tasks && w.tasks[wk].ReserveCas? && w.tasks[wk].cmd.ReserveInventoryCmd? {
      var cmd := w.tasks[wk].cmd;
      HasLogAppend(w.inv.logs, InventoryLog(cmd.productId, cmd.orderId, Reserve, cmd.quantity), o, Release);
    }
  }

  /** Stock that has gone back stays back, and the saga stays FAILED. */
  lemma {:induction false} ReturnIsPermanent(w: World, actions: seq<Action>, o: OrderId)
    requires Consistent(w) && ReleaseReportedFailed(w, o) && Abs(w, o).stock.Returned?
    ensures ReleaseReportedFailed(Exec(w, actions), o) && Abs(Exec(w, actions), o).stock.Returned?
    decreases |actions|
  {
    if actions != [] {
      var before := actions[..|actions| - 1];
      ReturnIsPermanent(w, before, o);
      RunConsistent(w, before);
      StepConsistent(Exec(w, before), actions[|actions| - 1]);
      FailedReturnKept(Exec(w, before), Exec(w, actions), o);
    }
  }

  lemma FailedReturnKept(w: World, w': World, o: OrderId)
    requires Evolves(w, w') && ReleaseReportedFailed(w, o) && Abs(w, o).stock.Returned?
    ensures ReleaseReportedFailed(w', o) && Abs(w', o).stock.Returned?
  {
    assert TxnStutterOrStep(Abs(w, o), Abs(w', o));
  }

  /** One release command delivered to two workers that both pass the log check. */
  ghost predicate ReleasersMeet(w: World, c: Message, x: WorkerId, y: WorkerId) {
    true == (
      && c in w.net && c.body.ReleaseInventoryCmd? && Idle(w, x) && Idle(w, y) && x != y
      && OrderPhase(w, c.body.orderId).Releasing? && !HasLog(w.inv.logs, c.body.orderId, Release)
      && c.body.productId in w.inv.rows)
  }

  function RaceRun(c: Message, x: WorkerId, y: WorkerId, text: string): seq<Action> {
    [BeginRelease(x, c), BeginRelease(y, c), CommitRelease(y, false, text), CommitRelease(x, false, text)]
  }

  /** y gives the stock back; x runs into the unique index and reports a failure. */
  ghost predicate RaceLost(w: World, w': World, c: Message, x: WorkerId, text: string) {
    true == (
      && w'.db == w.db && w'.hist == w.hist && w'.net == w.net
      && HasLog(w'.inv.logs, c.body.orderId, Release)
      && c.body.ReleaseInventoryCmd?
      && x in w'.tasks && w'.tasks[x] == Pub(Released(c.body, false, text)))
  }

  lemma ReleasersBegin(w: World, c: Message, x: WorkerId, y: WorkerId)
    requires ReleasersMeet(w, c, x, y)
    ensures Next(Next(w, BeginRelease(x, c)), BeginRelease(y, c))
         == Assign(Assign(w, x, ReleaseTxn(c.body)), y, ReleaseTxn(c.body))
  {
  }

  lemma ReleaserWins(w: World, c: Message, x: WorkerId, y: WorkerId, text: string)
    requires ReleasersMeet(w, c, x, y)
    ensures var w2 := Assign(Assign(w, x, ReleaseTxn(c.body)), y, ReleaseTxn(c.body));
            var w3 := DoCommitRelease(w2, y, false, text);
            && w3.db == w.db && w3.hist == w.hist && w3.net == w.net
            && w3.inv.logs == w.inv.logs + [InventoryLog(c.body.productId, c.body.orderId, Release, c.body.quantity)]
            && c.body.productId in w3.inv.rows && x in w3.tasks && w3.tasks[x] == ReleaseTxn(c.body)
  {
  }

  lemma RaceRuns(w: World, c: Message, x: WorkerId, y: WorkerId, text: string)
    requires ReleasersMeet(w, c, x, y)
    ensures RaceLost(w, Exec(w, RaceRun(c, x, y, text)), c, x, text)
  {
    ReleasersBegin(w, c, x, y);
    ReleaserWins(w, c, x, y, text);
    HasLogAppend(w.inv.logs, InventoryLog(c.body.productId, c.body.orderId, Release, c.body.quantity),
                 c.body.orderId, Release);
    Exec2(w, BeginRelease(x, c), BeginRelease(y, c));
    var w2 := Exec(w, [BeginRelease(x, c), BeginRelease(y, c)]);
    Exec2(w2, CommitRelease(y, false, text), CommitRelease(x, false, text));
    ExecConcat(w, [BeginRelease(x, c), BeginRelease(y, c)], [CommitRelease(y, false, text), CommitRelease(x, false, text)]);
    assert RaceRun(c, x, y, text)
        == [BeginRelease(x, c), BeginRelease(y, c)] + [CommitRelease(y, false, text), CommitRelease(x, false, text)];
  }

  lemma FailurePublished(w: World, w4: World, c: Message, x: WorkerId, text: string)
    requires RaceLost(w, w4, c, x, text) && OrderPhase(w, c.body.orderId).Releasing?
    ensures var w5 := Next(w4, Publish(x)); var e := Message(w4.nextId, Released(c.body, false, text));
            e in w5.net && Idle(w5, x) && OrderPhase(w5, c.body.orderId).Releasing?
            && HasLog(w5.inv.logs, c.body.orderId, Release)
  {
  }

  lemma FailureEnds(w: World, x: WorkerId, e: Message)
    requires Consistent(w) && e in w.net && Idle(w, x) && e.body.InventoryReleasedEvent? && !e.body.success
    requires OrderPhase(w, e.body.orderId).Releasing? && HasLog(w.inv.logs, e.body.orderId, Release)
    ensures var w' := Next(w, HandleEvent(x, e, true));
            ReleaseReportedFailed(w', e.body.orderId) && Abs(w', e.body.orderId).stock.Returned?
  {
    WaitingMoves(w, e);
    FailedReleaseReturnedIff(w, HandleEvent(x, e, true));
  }

  /** From every such world six steps lead to a saga that is FAILED although its stock is back. */
  lemma {:induction false} ReleaseRaceReportsFailure(w: World, c: Message, x: WorkerId, y: WorkerId, text: string)
    returns (run: seq<Action>)
    requires Consistent(w) && ReleasersMeet(w, c, x, y)
    ensures run == RaceRun(c, x, y, text)
                   + [Publish(x), HandleEvent(x, Message(Exec(w, RaceRun(c, x, y, text)).nextId, Released(c.body, false, text)), true)]
    ensures ReleaseReportedFailed(Exec(w, run), c.body.orderId) && Abs(Exec(w, run), c.body.orderId).stock.Returned?
  {
    var w4 := Exec(w, RaceRun(c, x, y, text));
    RaceRuns(w, c, x, y, text);
    RunConsistent(w, RaceRun(c, x, y, text));
    var e := Message(w4.nextId, Released(c.body, false, text));
    run := RaceRun(c, x, y, text) + [Publish(x), HandleEvent(x, e, true)];
    ExecConcat(w, RaceRun(c, x, y, text), [Publish(x), HandleEvent(x, e, true)]);
    Exec2(w4, Publish(x), HandleEvent(x, e, true));
    StepConsistent(w4, Publish(x));
    FailurePublished(w, w4, c, x, text);
    FailureEnds(Next(w4, Publish(x)), x, e);
  }

  // ---------------------------------------------------------------- what redelivery cannot repair

  lemma ProcessedKept(w: World, a: Action, id: Uuid)
    requires Consistent(w) && id in w.db.processed
    ensures id in Next(w, a).db.processed
  {
    if Moving(w, a) {
      MoveOfAction(w, a);
    } else {
      HistoryOfAction(w, a);
    }
  }

  lemma {:induction false} ProcessedStays(w: World, actions: seq<Action>, id: Uuid)
    requires Consistent(w) && id in w.db.processed
    ensures id in Exec(w, actions).db.processed
    decreases |actions|
  {
    if actions != [] {
      var before := actions[..|actions| - 1];
      ProcessedStays(w, before, id);
      RunConsistent(w, before);
      ProcessedKept(Exec(w, before), actions[|actions| - 1], id);
    }
  }

  /** An event that has moved its saga does nothing when it is delivered again, however much later, even if
      the command that should have followed was lost: only a re-publish under a fresh id repairs that. */
  lemma {:induction false} RedeliveryIsSilent(w: World, a: Action, later: seq<Action>, wk: WorkerId, recorded: bool)
    requires Consistent(w) && Moving(w, a)
    ensures var w' := Exec(Next(w, a), later); Next(w', HandleEvent(wk, a.m, recorded)) == w'
  {
    NowProcessed(w, a);
    ProcessedStays(Next(w, a), later, a.m.id);
    ProcessedIgnored(Exec(Next(w, a), later), wk, a.m, recorded);
  }

  lemma NowProcessed(w: World, a: Action)
    requires Consistent(w) && Moving(w, a)
    ensures Consistent(Next(w, a)) && a.m.id in Next(w, a).db.processed
  {
    MoveOfAction(w, a);
    StepConsistent(w, a);
  }

  lemma ProcessedIgnored(w: World, wk: WorkerId, m: Message, recorded: bool)
    requires m.id in w.db.processed
    ensures Next(w, HandleEvent(wk, m, recorded)) == w
  {
  }

  /** A payment command whose row has been inserted is not answered again under the same id, even if its
      reply was lost. */
  lemma {:induction false} PaymentRedeliveryIsSilent(w: World, m: Message, later: seq<Action>, wk: WorkerId)
    requires m.id in w.pay.processed
    ensures var w' := Exec(w, later); Next(w', BeginPayment(wk, m)) == w'
  {
    Safety.PaymentFixed(w, later, m.body.orderId, m.id);
  }

  /** No step of the run starts a saga for the order. */
  predicate NoStart(actions: seq<Action>, o: OrderId) {
    forall i | 0 <= i < |actions| :: !(actions[i].StartSaga? && actions[i].o == o)
  }

  lemma IndexStep(w: World, a: Action, o: OrderId)
    requires o !in w.db.byOrder && !(a.StartSaga? && a.o == o)
    ensures o !in Next(w, a).db.byOrder
  {
    if Moving(w, a) {
      EventFields(w, a, React(w.db, a.m));
    } else if !a.CreateOrder? && !a.StartSaga? {
      OrderDbUntouched(w, a);
    }
  }

  lemma {:induction false} NoSagaStays(w: World, actions: seq<Action>, o: OrderId)
    requires o !in w.db.byOrder && NoStart(actions, o)
    ensures o !in Exec(w, actions).db.byOrder
    decreases |actions|
  {
    if actions != [] {
      NoSagaStays(w, actions[..|actions| - 1], o);
      IndexStep(Exec(w, actions[..|actions| - 1]), actions[|actions| - 1], o);
    }
  }

  /** An order whose saga row was never written stays PENDING for ever: recovery lists sagas, not orders. */
  lemma {:induction false} OrphanStaysPending(w: World, actions: seq<Action>, o: OrderId)
    requires Consistent(w) && o in w.db.orders && o !in w.db.byOrder && NoStart(actions, o)
    ensures var w' := Exec(w, actions);
            && o !in w'.db.byOrder
            && o in w'.db.orders && w'.db.orders[o].status == Pending
            && !Safety.Paid(w', o) && !HasLog(w'.inv.logs, o, Reserve)
  {
    NoSagaStays(w, actions, o);
    Safety.OrderFixed(w, actions, o);
    RunConsistent(w, actions);
    assert TxnOk(Abs(Exec(w, actions), o));
  }
}
