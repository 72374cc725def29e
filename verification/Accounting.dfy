/** Message ids, processed events, terminal records: who is counted where, and how often. */
module Accounting {
  import opened SagaTypes
  import opened Protocol
  import opened OrderTransaction
  import opened Invariant
  import opened Preservation

  /** RESERVING 3, PROCESSING 2, RELEASING 1, DONE 0. */
  function StepRank(step: SagaStep): nat {
    match step
    case ReservingInventory => 3
    case ProcessingPayment => 2
    case ReleasingInventory => 1
    case Done => 0
  }

  /** The rank at which a saga waits for this kind of reply; 0 for commands. */
  function EventRank(b: Payload): nat {
    match b
    case InventoryReservedEvent(_, _, _, _, _, _) => 3
    case PaymentProcessedEvent(_, _, _, _, _) => 2
    case InventoryReleasedEvent(_, _, _, _, _, _) => 1
    case _ => 0
  }

  /** The saga has already gone past the step that waits for this event. */
  ghost predicate Passed(w: World, b: Payload) {
    b.sagaId in w.db.sagas && StepRank(w.db.sagas[b.sagaId].step) < EventRank(b)
  }

  ghost predicate NetIds(w: World) {
    true == (&& (forall m :: m in w.net ==> m.id < w.nextId)
    && (forall m, n :: m in w.net && n in w.net && m.id == n.id ==> m == n))
  }

  ghost predicate MovedBy(w: World, s: Uuid, id: Uuid) {
    exists m :: m in w.net && m.id == id && m.body.sagaId == s
  }

  ghost function Total(hist: map<Uuid, seq<Uuid>>): nat
    decreases |hist|
  {
    if hist == map[] then 0 else var s :| s in hist; |hist[s]| + Total(hist - {s})
  }

  ghost predicate Accounted(w: World) {
    true == (&& (forall m :: m in w.net && m.id in w.db.processed ==> Passed(w, m.body))
    && (forall s, id :: s in w.hist && id in w.hist[s] ==> id in w.db.processed && MovedBy(w, s, id))
    && (forall id :: id in w.db.processed ==> exists s :: s in w.hist && id in w.hist[s])
    && |w.db.processed| == Total(w.hist))
  }

  ghost predicate Recorded(w: World) {
    forall r :: r in w.terminals ==>
      && w.terminals[r] == 1
      && r.sagaId in w.db.sagas
      && w.db.sagas[r.sagaId].step == Done && w.db.sagas[r.sagaId].status == r.status
  }

  function TaskMessageId(t: Task): Option<Uuid> {
    if t.PayLookup? || t.PayInsert? then Some(t.messageId) else None
  }

  ghost predicate PaymentIds(w: World) {
    true == (&& (forall id :: id in w.pay.processed ==> id < w.nextId)
    && (forall wk :: wk in w.tasks && TaskMessageId(w.tasks[wk]).Some? ==> TaskMessageId(w.tasks[wk]).value < w.nextId))
  }

  ghost predicate Books(w: World) {
    true == (NetIds(w) && Accounted(w) && Recorded(w) && PaymentIds(w))
  }

  // ---------------------------------------------------------------- sums over the history

  lemma {:induction false} TotalRemove(hist: map<Uuid, seq<Uuid>>, s: Uuid)
    requires s in hist
    ensures Total(hist) == |hist[s]| + Total(hist - {s})
    decreases |hist|
  {
    var x :| x in hist && Total(hist) == |hist[x]| + Total(hist - {x});
    if x != s {
      TotalRemove(hist - {x}, s);
      TotalRemove(hist - {s}, x);
      assert hist - {x} - {s} == hist - {s} - {x};
    }
  }

  lemma TotalUpdate(hist: map<Uuid, seq<Uuid>>, s: Uuid, q: seq<Uuid>)
    ensures Total(hist[s := q]) == Total(hist) + |q| - (if s in hist then |hist[s]| else 0)
  {
    TotalRemove(hist[s := q], s);
    assert hist[s := q] - {s} == hist - {s};
    if s in hist {
      TotalRemove(hist, s);
    } else {
      assert hist - {s} == hist;
    }
  }

  // ---------------------------------------------------------------- ranks

  /** The rank of a saga, read off its row or off the phase of its order. */
  lemma RankOfPhase(w: World, s: Uuid)
    requires Inv(w) && s in w.db.sagas
    ensures w.db.sagas[s].orderId in w.db.byOrder && w.db.byOrder[w.db.sagas[s].orderId] == s
    ensures !OrderPhase(w, w.db.sagas[s].orderId).Unstarted?
    ensures StepRank(w.db.sagas[s].step) == PhaseRank(OrderPhase(w, w.db.sagas[s].orderId))
  {
    assert RowOk(w.db.sagas[s], w.db.orders[w.db.sagas[s].orderId].status, Moves(w, s));
  }

  lemma StepNeverRaises(w: World, w': World, s: Uuid)
    requires Inv(w) && Inv(w') && Evolves(w, w') && s in w.db.sagas
    ensures s in w'.db.sagas && w'.db.sagas[s].orderId == w.db.sagas[s].orderId
    ensures StepRank(w'.db.sagas[s].step) <= StepRank(w.db.sagas[s].step)
  {
    var o := w.db.sagas[s].orderId;
    RankOfPhase(w, s);
    SagaRowStays(w, w', s);
    RankOfPhase(w', s);
    PhaseRankNeverRises(Abs(w, o), Abs(w', o));
  }

  lemma SagaRowStays(w: World, w': World, s: Uuid)
    requires Indexed(w.db) && Indexed(w'.db) && Evolves(w, w') && s in w.db.sagas
    ensures s in w'.db.sagas && w'.db.sagas[s].orderId == w.db.sagas[s].orderId
    ensures TxnStutterOrStep(Abs(w, w.db.sagas[s].orderId), Abs(w', w.db.sagas[s].orderId))
  {
    assert w'.db.byOrder[w.db.sagas[s].orderId] == s;
  }

  // ---------------------------------------------------------------- what one action adds

  /** The body of the message that an action publishes. */
  function Sent(w: World, a: Action): Option<Payload> {
    match a
    case Publish(wk) => if wk in w.tasks && w.tasks[wk].Pub? then Some(w.tasks[wk].body) else None
    case ResendNext(wk, delivered) =>
      if wk in w.tasks && w.tasks[wk].Recover? && w.tasks[wk].todo != [] && delivered
      then RecoveryCommand(w.db, w.tasks[wk].todo[0]) else None
    case _ => None
  }

  /** The event that an action uses to move a saga. */
  predicate Moving(w: World, a: Action) {
    a.HandleEvent? && Idle(w, a.wk) && a.m in w.net && React(w.db, a.m).Moved?
  }

  ghost predicate NetGrows(w: World, w': World, b: Option<Payload>) {
    true == (
      if b.None? then w'.net == w.net && w.nextId <= w'.nextId
      else w'.net == w.net + {Message(w.nextId, b.value)} && w'.nextId == w.nextId + 1)
  }

  /** Processed events, moved sagas and the metric are untouched. */
  ghost predicate NoMove(w: World, w': World) {
    true == (
      && w'.db.processed == w.db.processed && w'.terminals == w.terminals
      && (forall s :: s in w.hist ==> s in w'.hist && w'.hist[s] == w.hist[s])
      && (forall s :: s in w'.hist && s !in w.hist ==> w'.hist[s] == [])
      && (forall s :: s in w.db.sagas ==> s in w'.db.sagas && w'.db.sagas[s] == w.db.sagas[s]))
  }

  lemma NetOfAction(w: World, a: Action)
    ensures NetGrows(w, Next(w, a), Sent(w, a))
  {
    if a.Worker().Some? && !OfOrderService(a) {
      OtherServicesLeaveOrders(w, a);
    }
  }

  lemma OrderDbUntouched(w: World, a: Action)
    requires !a.CreateOrder? && !a.StartSaga? && !Moving(w, a)
    ensures Next(w, a).db == w.db && Next(w, a).hist == w.hist && Next(w, a).terminals == w.terminals
  {
    if a.Worker().Some? && !OfOrderService(a) {
      OtherServicesLeaveOrders(w, a);
    }
  }

  predicate OfPaymentService(a: Action) {
    a.BeginPayment? || a.LookupPayment? || a.InsertPayment?
  }

  lemma OtherServicesLeaveOrders(w: World, a: Action)
    requires a.Worker().Some? && !OfOrderService(a)
    ensures Next(w, a).db == w.db && Next(w, a).hist == w.hist && Next(w, a).terminals == w.terminals
    ensures Next(w, a).net == w.net && w.nextId <= Next(w, a).nextId
  {
    if OfPaymentService(a) {
      PaymentLeavesOrders(w, a);
    } else if a.CasReserve? || a.CommitRelease? {
      StockLeavesOrders(w, a);
    } else {
      CheckLeavesOrders(w, a);
    }
  }

  lemma PaymentLeavesOrders(w: World, a: Action)
    requires OfPaymentService(a)
    ensures Next(w, a).db == w.db && Next(w, a).hist == w.hist && Next(w, a).terminals == w.terminals
    ensures Next(w, a).net == w.net && w.nextId <= Next(w, a).nextId
  {
  }

  lemma CheckLeavesOrders(w: World, a: Action)
    requires a.BeginReserve? || a.ReadStock? || a.BeginRelease?
    ensures Next(w, a).db == w.db && Next(w, a).hist == w.hist && Next(w, a).terminals == w.terminals
    ensures Next(w, a).net == w.net && w.nextId <= Next(w, a).nextId
  {
  }

  lemma StockLeavesOrders(w: World, a: Action)
    requires a.CasReserve? || a.CommitRelease?
    ensures Next(w, a).db == w.db && Next(w, a).hist == w.hist && Next(w, a).terminals == w.terminals
    ensures Next(w, a).net == w.net && w.nextId <= Next(w, a).nextId
  {
  }

  lemma InventoryUntouched(w: World, a: Action)
    requires !a.CreateSku? && !a.AdminPut? && !a.CasReserve? && !a.CommitRelease?
    ensures Next(w, a).inv == w.inv && Next(w, a).supplied == w.supplied
  {
    if OfOrderService(a) {
      OrdersLeaveStock(w, a);
    }
  }

  lemma OrdersLeaveStock(w: World, a: Action)
    requires OfOrderService(a)
    ensures Next(w, a).inv == w.inv && Next(w, a).supplied == w.supplied
  {
    if a.HandleEvent? {
      EventLeavesStock(w, a.wk, a.m, a.recorded);
    }
  }

  lemma EventLeavesStock(w: World, wk: WorkerId, m: Message, recorded: bool)
    ensures DoHandleEvent(w, wk, m, recorded).inv == w.inv && DoHandleEvent(w, wk, m, recorded).supplied == w.supplied
  {
  }

  lemma PaymentDbUntouched(w: World, a: Action)
    requires !a.PostPayment? && !a.InsertPayment?
    ensures Next(w, a).pay == w.pay
  {
  }

  lemma BudgetFixed(w: World, a: Action)
    ensures Next(w, a).maxRetries == w.maxRetries
  {
    if a.Worker().Some? && !OfOrderService(a) {
      BudgetFixedElsewhere(w, a);
    }
  }

  lemma BudgetFixedElsewhere(w: World, a: Action)
    requires a.Worker().Some? && !OfOrderService(a)
    ensures Next(w, a).maxRetries == w.maxRetries
  {
  }

  lemma {:induction false} RunBudget(w: World, actions: seq<Action>)
    ensures Exec(w, actions).maxRetries == w.maxRetries
    decreases |actions|
  {
    if actions != [] {
      RunBudget(w, actions[..|actions| - 1]);
      BudgetFixed(Exec(w, actions[..|actions| - 1]), actions[|actions| - 1]);
    }
  }

  lemma StartSagaHistory(w: World, wk: WorkerId, o: OrderId)
    requires SagasOk(w)
    ensures NoMove(w, DoStartSaga(w, wk, o))
  {
    assert w.nextId !in w.db.sagas && w.nextId !in w.hist;
  }

  lemma HistoryOfAction(w: World, a: Action)
    requires SagasOk(w) && !Moving(w, a)
    ensures NoMove(w, Next(w, a))
  {
    if a.StartSaga? {
      StartSagaHistory(w, a.wk, a.o);
    } else if !a.CreateOrder? {
      OrderDbUntouched(w, a);
    }
  }

  lemma {:induction false} IdsGrow(w: World, actions: seq<Action>)
    ensures w.nextId <= Exec(w, actions).nextId
    decreases |actions|
  {
    if actions != [] {
      IdsGrow(w, actions[..|actions| - 1]);
      NetOfAction(Exec(w, actions[..|actions| - 1]), actions[|actions| - 1]);
    }
  }

  // ---------------------------------------------------------------- message ids

  lemma NetIdsKept(w: World, w': World, b: Option<Payload>)
    requires NetIds(w) && NetGrows(w, w', b)
    ensures NetIds(w') && w.nextId <= w'.nextId
    ensures forall m :: m in w.net ==> m in w'.net
    ensures forall m :: m in w'.net && m !in w.net ==> m.id == w.nextId
  {
  }

  lemma ProcessedIdsOld(w: World)
    requires NetIds(w) && Accounted(w)
    ensures forall id :: id in w.db.processed ==> id < w.nextId
  {
    forall id | id in w.db.processed ensures id < w.nextId {
      var s :| s in w.hist && id in w.hist[s];
      assert MovedBy(w, s, id);
    }
  }

  // ---------------------------------------------------------------- steps that move no saga

  lemma HistGrowth(hist: map<Uuid, seq<Uuid>>, hist': map<Uuid, seq<Uuid>>)
    requires forall s :: s in hist ==> s in hist' && hist'[s] == hist[s]
    requires forall s :: s in hist' && s !in hist ==> hist'[s] == []
    ensures Total(hist') == Total(hist)
    decreases |hist'|
  {
    if s :| s in hist' && s !in hist {
      TotalRemove(hist', s);
      HistGrowth(hist, hist' - {s});
    } else {
      assert hist' == hist;
    }
  }

  lemma PassedKept(w: World, w': World)
    requires NetIds(w) && Accounted(w) && NoMove(w, w')
    requires forall m :: m in w'.net && m !in w.net ==> m.id == w.nextId
    ensures forall m :: m in w'.net && m.id in w'.db.processed ==> Passed(w', m.body)
  {
    ProcessedIdsOld(w);
    forall m | m in w'.net && m.id in w'.db.processed ensures Passed(w', m.body) {
      assert m in w.net && Passed(w, m.body);
    }
  }

  lemma MovedByKept(w: World, w': World)
    requires Accounted(w) && NoMove(w, w')
    requires forall m :: m in w.net ==> m in w'.net
    ensures forall s, id :: s in w'.hist && id in w'.hist[s] ==> id in w'.db.processed && MovedBy(w', s, id)
    ensures forall id :: id in w'.db.processed ==> exists s :: s in w'.hist && id in w'.hist[s]
  {
    forall s, id | s in w'.hist && id in w'.hist[s] ensures id in w'.db.processed && MovedBy(w', s, id) {
      assert MovedBy(w, s, id);
    }
    forall id | id in w'.db.processed ensures exists s :: s in w'.hist && id in w'.hist[s] {
      var s :| s in w.hist && id in w.hist[s];
      assert s in w'.hist && id in w'.hist[s];
    }
  }

  lemma StillAccounted(w: World, w': World, b: Option<Payload>)
    requires NetIds(w) && Accounted(w) && NoMove(w, w') && NetGrows(w, w', b)
    ensures NetIds(w') && Accounted(w')
  {
    NetIdsKept(w, w', b);
    PassedKept(w, w');
    MovedByKept(w, w');
    HistGrowth(w.hist, w'.hist);
  }

  // ---------------------------------------------------------------- a moving event

  /** What a moving event does to the books. */
  ghost predicate Move(w: World, w': World, m: Message) {
    var s := m.body.sagaId;
    true == (
      && m in w.net && w'.net == w.net && w'.nextId == w.nextId
      && m.id !in w.db.processed && w'.db.processed == w.db.processed + {m.id}
      && s in w.hist && w'.hist == w.hist[s := w.hist[s] + [m.id]]
      && s in w.db.sagas && w.db.sagas[s].step != Done
      && w'.db.sagas == w.db.sagas[s := NextRow(w.db.sagas[s], m)]
      && StepRank(w.db.sagas[s].step) == EventRank(m.body)
      && StepRank(NextRow(w.db.sagas[s], m).step) < EventRank(m.body)
      && (w'.terminals == w.terminals
          || (NextRow(w.db.sagas[s], m).step == Done
              && w'.terminals == w.terminals + multiset{TerminalRecord(s, NextRow(w.db.sagas[s], m).status)})))
  }

  lemma MoveOfAction(w: World, a: Action)
    requires Inv(w) && Moving(w, a)
    ensures Move(w, Next(w, a), a.m)
  {
    assert Backed(w, a.m.body);
    ReactMeaning(w, a.m);
    EventFields(w, a, React(w.db, a.m));
    AwaitedRank(w, a.m);
  }

  lemma AwaitedRank(w: World, m: Message)
    requires Inv(w) && m.body.sagaId in w.db.sagas && Awaits(w.db.sagas[m.body.sagaId], m.body)
    ensures var g := w.db.sagas[m.body.sagaId];
            && g.step != Done && StepRank(g.step) == EventRank(m.body)
            && StepRank(NextRow(g, m).step) < EventRank(m.body)
  {
  }

  /** All that a moving event changes. */
  lemma EventFields(w: World, a: Action, r: Reaction)
    requires a.HandleEvent? && Moving(w, a) && r == React(w.db, a.m)
    ensures var s := a.m.body.sagaId;
            Next(w, a) == w.(
              db := r.db,
              hist := w.hist[s := (if s in w.hist then w.hist[s] else []) + [a.m.id]],
              terminals := if a.recorded && r.terminal.Some? then w.terminals + multiset{TerminalRecord(s, r.terminal.value)}
                           else w.terminals,
              tasks := if r.command.Some? then w.tasks[a.wk := Pub(r.command.value)] else w.tasks)
  {
  }

  /** The phase that an event takes its order to. */
  function PhaseAfter(b: Payload): Phase {
    match b
    case InventoryReservedEvent(_, _, _, _, ok, _) => if ok then Paying else Rejected
    case PaymentProcessedEvent(_, _, _, ok, _) => if ok then PaidUp else Releasing
    case InventoryReleasedEvent(_, _, _, _, ok, _) => if ok then OrderTransaction.Compensated else ReleaseFailed
    case _ => Unstarted
  }

  lemma NextPhase(g: SagaState, status: OrderStatus, moves: nat, m: Message)
    requires RowOk(g, status, moves) && Awaits(g, m.body)
    ensures PhaseOf(NextRow(g, m), moves + 1) == PhaseAfter(m.body)
  {
  }

  /** Seen as atomic records, only the phase of its own order changes. */
  lemma {:induction false} MovedAbs(w: World, a: Action)
    requires Inv(w) && Moving(w, a)
    ensures Abs(Next(w, a), a.m.body.orderId) == Abs(w, a.m.body.orderId).(phase := PhaseAfter(a.m.body))
    ensures forall x: OrderId :: x != a.m.body.orderId ==> Abs(Next(w, a), x) == Abs(w, x)
  {
    var s, o := a.m.body.sagaId, a.m.body.orderId;
    var g := w.db.sagas[s];
    assert Backed(w, a.m.body);
    ReactMeaning(w, a.m);
    EventFields(w, a, React(w.db, a.m));
    NextPhase(g, w.db.orders[o].status, Moves(w, s), a.m);
    RowMovedAbs(w, Next(w, a), s, o, NextRow(g, a.m), a.m.id);
  }

  lemma MoveAccounted(w: World, w': World, m: Message)
    requires NetIds(w) && Accounted(w) && Move(w, w', m)
    ensures Accounted(w')
  {
    var s := m.body.sagaId;
    TotalUpdate(w.hist, s, w.hist[s] + [m.id]);
    forall x, id | x in w'.hist && id in w'.hist[x] ensures id in w'.db.processed && MovedBy(w', x, id) {
      if x == s && id == m.id {
        assert m in w'.net;
      } else {
        assert MovedBy(w, x, id);
      }
    }
    MoveCovers(w, w', m);
    MovePassed(w, w', m);
  }

  lemma MoveCovers(w: World, w': World, m: Message)
    requires Accounted(w) && Move(w, w', m)
    ensures forall id :: id in w'.db.processed ==> exists x :: x in w'.hist && id in w'.hist[x]
  {
    forall id | id in w'.db.processed ensures exists x :: x in w'.hist && id in w'.hist[x] {
      if id == m.id {
        assert m.body.sagaId in w'.hist && id in w'.hist[m.body.sagaId];
      } else {
        var x :| x in w.hist && id in w.hist[x];
        assert x in w'.hist && id in w'.hist[x];
      }
    }
  }

  lemma MovePassed(w: World, w': World, m: Message)
    requires NetIds(w) && Accounted(w) && Move(w, w', m)
    ensures forall n :: n in w'.net && n.id in w'.db.processed ==> Passed(w', n.body)
  {
    forall n | n in w'.net && n.id in w'.db.processed ensures Passed(w', n.body) {
      if n.id == m.id {
        assert n == m;
      } else {
        assert Passed(w, n.body);
      }
    }
  }

  // ---------------------------------------------------------------- terminal records

  lemma StillRecorded(w: World, w': World)
    requires Recorded(w) && NoMove(w, w')
    ensures Recorded(w')
  {
  }

  lemma MoveRecorded(w: World, w': World, m: Message)
    requires Recorded(w) && Move(w, w', m)
    ensures Recorded(w')
  {
    var s := m.body.sagaId;
    forall r | r in w'.terminals
      ensures w'.terminals[r] == 1 && r.sagaId in w'.db.sagas
      ensures w'.db.sagas[r.sagaId].step == Done && w'.db.sagas[r.sagaId].status == r.status
    {
      assert r in w.terminals ==> r.sagaId != s;
    }
  }

  // ---------------------------------------------------------------- payment service ids

  lemma OtherTasksKept(w: World, a: Action, wk: WorkerId)
    requires a.Worker() != Some(wk)
    ensures wk in Next(w, a).tasks <==> wk in w.tasks
    ensures wk in w.tasks ==> Next(w, a).tasks[wk] == w.tasks[wk]
  {
    if a.Worker().Some? && !OfOrderService(a) {
      OtherServicesKeepTasks(w, a, wk);
    }
  }

  lemma OtherServicesKeepTasks(w: World, a: Action, wk: WorkerId)
    requires a.Worker().Some? && a.wk != wk && !OfOrderService(a)
    ensures wk in Next(w, a).tasks <==> wk in w.tasks
    ensures wk in w.tasks ==> Next(w, a).tasks[wk] == w.tasks[wk]
  {
    if a.BeginReserve? || a.ReadStock? || a.CasReserve? {
      ReserveKeepsTasks(w, a, wk);
    }
  }

  lemma ReserveKeepsTasks(w: World, a: Action, wk: WorkerId)
    requires (a.BeginReserve? || a.ReadStock? || a.CasReserve?) && a.wk != wk
    ensures wk in Next(w, a).tasks <==> wk in w.tasks
    ensures wk in w.tasks ==> Next(w, a).tasks[wk] == w.tasks[wk]
  {
  }

  /** A task holds a message id only if it held it before or has just taken that message. */
  lemma TaskIdsKept(w: World, a: Action, wk: WorkerId)
    requires NetIds(w) && PaymentIds(w) && wk in Next(w, a).tasks && TaskMessageId(Next(w, a).tasks[wk]).Some?
    ensures TaskMessageId(Next(w, a).tasks[wk]).value < w.nextId
  {
    if a.Worker() != Some(wk) {
      OtherTasksKept(w, a, wk);
    } else if OfOrderService(a) {
      OrderTaskIds(w, a);
    } else if a.BeginPayment? || a.LookupPayment? || a.InsertPayment? {
    } else {
      StockTaskIds(w, a);
    }
  }

  lemma OrderTaskIds(w: World, a: Action)
    requires PaymentIds(w) && OfOrderService(a) && a.wk in Next(w, a).tasks
    ensures var t := Next(w, a).tasks[a.wk]; TaskMessageId(t).None? || (a.wk in w.tasks && w.tasks[a.wk] == t)
  {
  }

  lemma StockTaskIds(w: World, a: Action)
    requires a.BeginReserve? || a.ReadStock? || a.CasReserve? || a.BeginRelease? || a.CommitRelease?
    requires a.wk in Next(w, a).tasks
    ensures var t := Next(w, a).tasks[a.wk]; TaskMessageId(t).None? || (a.wk in w.tasks && w.tasks[a.wk] == t)
  {
  }

  lemma InsertIds(w: World, wk: WorkerId, declined: bool)
    requires PaymentIds(w)
    ensures forall id :: id in DoInsertPayment(w, wk, declined).pay.processed ==> id < w.nextId
  {
  }

  lemma PaymentIdsKept(w: World, a: Action)
    requires NetIds(w) && PaymentIds(w) && w.nextId <= Next(w, a).nextId
    ensures PaymentIds(Next(w, a))
  {
    var w' := Next(w, a);
    forall wk | wk in w'.tasks && TaskMessageId(w'.tasks[wk]).Some?
      ensures TaskMessageId(w'.tasks[wk]).value < w'.nextId
    {
      TaskIdsKept(w, a, wk);
    }
    if a.InsertPayment? {
      InsertIds(w, a.wk, a.declined);
    } else if a.PostPayment? {
    } else {
      PaymentDbUntouched(w, a);
    }
  }

  lemma BooksKept(w: World, a: Action)
    requires Inv(w) && Books(w)
    ensures Books(Next(w, a))
  {
    NetOfAction(w, a);
    NetIdsKept(w, Next(w, a), Sent(w, a));
    PaymentIdsKept(w, a);
    if Moving(w, a) {
      MoveOfAction(w, a);
      MoveAccounted(w, Next(w, a), a.m);
      MoveRecorded(w, Next(w, a), a.m);
    } else {
      HistoryOfAction(w, a);
      StillAccounted(w, Next(w, a), Sent(w, a));
      StillRecorded(w, Next(w, a));
    }
  }

  lemma InitBooks(maxRetries: nat)
    ensures Books(Init(maxRetries))
  {
  }
}
