/** The limits are real: runs from the empty system that reach them. */
module Witnesses {
  import opened SagaTypes
  import opened InventoryDatabase
  import opened Protocol
  import opened OrderTransaction
  import opened Invariant
  import opened Preservation
  import opened Accounting
  import opened StockSafety
  import opened Completion
  import opened Allocation
  import opened Openings
  import opened Limits
  import Safety

  /** Stock for one order of this quantity, not for two. */
  predicate ForOne(sale: Sale) { 1 <= sale.q <= sale.stock < 2 * sale.q }

  // ---------------------------------------------------------------- stock held by a rejected order

  function LeakRun(o: OrderId, sale: Sale, e: Message): seq<Action> {
    OneOrder(o, sale) + (TwinRun(FirstCommand(o, sale), 0, 1) + [Publish(0), HandleEvent(0, e, true)])
  }

  /** Eleven steps to an order that is FAILED and holds stock, with any positive retry budget. */
  lemma {:induction false} LeakFromInit(budget: nat, o: OrderId, sale: Sale) returns (e: Message)
    requires budget >= 1 && ForOne(sale)
    ensures |LeakRun(o, sale, e)| == 11
    ensures var w := Exec(Init(budget), LeakRun(o, sale, e)); Consistent(w) && RejectedSaga(w, o) && HoldsStock(w, o)
  {
    var w, c := Exec(Init(budget), OneOrder(o, sale)), FirstCommand(o, sale);
    OneOrderRun(budget, o, sale);
    EveryRun(budget, OneOrder(o, sale));
    assert TwinsMeet(w, c, 0, 1);
    var leak := DuplicateReserveLeaks(w, c, 0, 1);
    e := Message(Exec(w, TwinRun(c, 0, 1)).nextId, Reserved(c.body, false, INSUFFICIENT_STOCK));
    ExecConcat(Init(budget), OneOrder(o, sale), leak);
    EveryRun(budget, LeakRun(o, sale, e));
  }

  // ---------------------------------------------------------------- a late duplicate

  /** Two workers took the command when there was too little stock; worker 0 is refused. */
  function RefusedRun(c: Message): seq<Action> {
    [BeginReserve(0, c), BeginReserve(1, c), ReadStock(0)] + [Publish(0)]
  }

  /** Later an admin restocks, and worker 1 goes on. */
  function LateRun(p: ProductId, q: int): seq<Action> {
    [AdminPut(p, q), ReadStock(1), CasReserve(1)]
  }

  lemma FirstRefused(w: World, c: Message)
    requires w.tasks == map[] && c in w.net && c.body.ReserveInventoryCmd? && w.inv.logs == [] && w.maxRetries >= 1
    requires c.body.productId in w.inv.rows && w.inv.rows[c.body.productId].available < c.body.quantity
    ensures var b := Reserved(c.body, false, INSUFFICIENT_STOCK);
            Exec(w, RefusedRun(c)) == w.(
              net := w.net + {Message(w.nextId, b)}, nextId := w.nextId + 1,
              tasks := map[1 := ReserveLoop(c.body, 0)])
  {
    var b := Reserved(c.body, false, INSUFFICIENT_STOCK);
    FirstBegun(w, c);
    BothBegun(w.(tasks := map[0 := ReserveLoop(c.body, 0)]), c);
    var w3 := w.(tasks := map[1 := ReserveLoop(c.body, 0)][0 := Pub(b)]);
    ThenPublished(w, BeginReserve(0, c), BeginReserve(1, c), ReadStock(0), w3, 0, map[1 := ReserveLoop(c.body, 0)], b);
  }

  lemma FirstBegun(w: World, c: Message)
    requires w.tasks == map[] && c in w.net && c.body.ReserveInventoryCmd? && w.inv.logs == [] && w.maxRetries >= 1
    ensures DoBeginReserve(w, 0, c) == w.(tasks := map[0 := ReserveLoop(c.body, 0)])
  {
  }

  lemma BothBegun(w: World, c: Message)
    requires w.tasks == map[0 := ReserveLoop(c.body, 0)] && c in w.net && c.body.ReserveInventoryCmd?
    requires w.inv.logs == [] && w.maxRetries >= 1
    requires c.body.productId in w.inv.rows && w.inv.rows[c.body.productId].available < c.body.quantity
    ensures DoReadStock(DoBeginReserve(w, 1, c), 0)
         == w.(tasks := map[1 := ReserveLoop(c.body, 0)][0 := Pub(Reserved(c.body, false, INSUFFICIENT_STOCK))])
  {
  }

  lemma SecondReserves(w: World, c: Payload)
    requires w.tasks == map[1 := ReserveLoop(c, 0)] && c.ReserveInventoryCmd? && c.productId in w.inv.rows
    requires c.quantity >= 0 && w.inv.logs == []
    ensures LateReserved(w, Exec(w, LateRun(c.productId, c.quantity)), c)
  {
    Exec3(w, AdminPut(c.productId, c.quantity), ReadStock(1), CasReserve(1));
    RestockedSwap(DoAdminPut(w, c.productId, c.quantity), c);
  }

  ghost predicate LateReserved(w: World, w': World, c: Payload)
    requires c.ReserveInventoryCmd?
  {
    true == (
      && w'.db == w.db && w'.hist == w.hist
      && w'.inv.logs == [InventoryLog(c.productId, c.orderId, Reserve, c.quantity)])
  }

  lemma RestockedSwap(w: World, c: Payload)
    requires w.tasks == map[1 := ReserveLoop(c, 0)] && c.ReserveInventoryCmd? && c.productId in w.inv.rows
    requires w.inv.rows[c.productId].available == c.quantity && w.inv.logs == []
    ensures LateReserved(w, DoCasReserve(DoReadStock(w, 1), 1), c)
  {
    assert DoReadStock(w, 1) == Assign(w, 1, ReserveCas(c, 0, w.inv.rows[c.productId].version));
  }

  lemma RefusalRejects(w: World, e: Message)
    requires Consistent(w) && Idle(w, 0) && e in w.net && e.body.InventoryReservedEvent? && !e.body.success
    requires OrderPhase(w, e.body.orderId).Reserving?
    ensures var w' := Next(w, HandleEvent(0, e, true));
            w'.inv == w.inv && w'.tasks == w.tasks && RejectedSaga(w', e.body.orderId)
  {
    WaitingMoves(w, e);
    var a := HandleEvent(0, e, true);
    EventFields(w, a, React(w.db, e));
    assert Backed(w, e.body);
    ReactMeaning(w, e);
    PhaseMoved(w, a);
  }

  /** A late duplicate can still succeed: an order is rejected with no stock held, and holds stock after
      three more steps. */
  lemma {:induction false} LateFromInit(budget: nat, o: OrderId, sale: Sale) returns (ended: seq<Action>)
    requires budget >= 1 && 0 <= sale.stock < sale.q
    ensures var w := Exec(Init(budget), ended); RejectedSaga(w, o) && !HoldsStock(w, o)
    ensures var w' := Exec(Init(budget), ended + LateRun(sale.p, sale.q)); RejectedSaga(w', o) && HoldsStock(w', o)
  {
    var w, c := Exec(Init(budget), OneOrder(o, sale)), FirstCommand(o, sale);
    var b := Reserved(c.body, false, INSUFFICIENT_STOCK);
    var e := Message(w.nextId, b);
    OneOrderRun(budget, o, sale);
    FirstRefused(w, c);
    ExecConcat(Init(budget), OneOrder(o, sale), RefusedRun(c));
    EveryRun(budget, OneOrder(o, sale) + RefusedRun(c));
    var w1 := Exec(w, RefusedRun(c));
    PhaseUnpublished(w, w1, o);
    RefusalRejects(w1, e);
    ended := OneOrder(o, sale) + RefusedRun(c) + [HandleEvent(0, e, true)];
    ExecSnoc(Init(budget), OneOrder(o, sale) + RefusedRun(c), HandleEvent(0, e, true));
    HoldsAfterAll(Exec(Init(budget), ended), c.body);
    ExecConcat(Init(budget), ended, LateRun(sale.p, sale.q));
  }

  lemma HoldsAfterAll(w: World, c: Payload)
    requires w.tasks == map[1 := ReserveLoop(c, 0)] && c.ReserveInventoryCmd? && c.productId in w.inv.rows
    requires c.quantity >= 0 && w.inv.logs == [] && RejectedSaga(w, c.orderId)
    ensures var w' := Exec(w, LateRun(c.productId, c.quantity));
            RejectedSaga(w', c.orderId) && HoldsStock(w', c.orderId)
  {
    SecondReserves(w, c);
    var w' := Exec(w, LateRun(c.productId, c.quantity));
    PhaseUnpublished(w, w', c.orderId);
    assert InventoryLog(c.productId, c.orderId, Reserve, c.quantity) in w'.inv.logs;
  }

  // ---------------------------------------------------------------- a release that is raced

  function ReserveRun(c: Message): seq<Action> {
    [BeginReserve(0, c), ReadStock(0), CasReserve(0)] + [Publish(0)]
  }

  function DeclineRun(c: Message): seq<Action> {
    [BeginPayment(0, c), LookupPayment(0), InsertPayment(0, true)] + [Publish(0)]
  }

  function EventRun(e: Message): seq<Action> {
    [HandleEvent(0, e, true)] + [Publish(0)]
  }

  lemma ReservedAndAnswered(w: World, c: Message)
    requires w.tasks == map[] && c in w.net && c.body.ReserveInventoryCmd? && w.inv.logs == [] && w.maxRetries >= 1
    requires c.body.productId in w.inv.rows && w.inv.rows[c.body.productId].available >= c.body.quantity
    ensures Exec(w, ReserveRun(c)) == w.(
              inv := Taken(w.inv, c.body),
              net := w.net + {Message(w.nextId, Reserved(c.body, true, ""))}, nextId := w.nextId + 1)
  {
    ReservedInThree(w, c);
    var w3 := w.(inv := Taken(w.inv, c.body), tasks := map[][0 := Pub(Reserved(c.body, true, ""))]);
    ThenPublished(w, BeginReserve(0, c), ReadStock(0), CasReserve(0), w3, 0, map[], Reserved(c.body, true, ""));
  }

  lemma ReservedInThree(w: World, c: Message)
    requires w.tasks == map[] && c in w.net && c.body.ReserveInventoryCmd? && w.inv.logs == [] && w.maxRetries >= 1
    requires c.body.productId in w.inv.rows && w.inv.rows[c.body.productId].available >= c.body.quantity
    ensures Next(Next(Next(w, BeginReserve(0, c)), ReadStock(0)), CasReserve(0))
         == w.(inv := Taken(w.inv, c.body), tasks := map[][0 := Pub(Reserved(c.body, true, ""))])
  {
    FirstBegun(w, c);
    ReadAndSwapped(w.(tasks := map[0 := ReserveLoop(c.body, 0)]), c.body);
  }

  lemma ReadAndSwapped(w: World, c: Payload)
    requires w.tasks == map[0 := ReserveLoop(c, 0)] && c.ReserveInventoryCmd? && w.inv.logs == []
    requires c.productId in w.inv.rows && w.inv.rows[c.productId].available >= c.quantity
    ensures DoCasReserve(DoReadStock(w, 0), 0)
         == w.(inv := Taken(w.inv, c), tasks := map[][0 := Pub(Reserved(c, true, ""))])
  {
    assert DoReadStock(w, 0) == w.(tasks := map[0 := ReserveCas(c, 0, w.inv.rows[c.productId].version)]);
  }

  /** The event moves the saga, and the command it calls for is published. */
  ghost predicate Followed(w: World, w': World, e: Payload, cmd: Payload) {
    true == (
      && w'.inv == w.inv && w'.pay == w.pay && w'.tasks == w.tasks
      && Message(w.nextId, cmd) in w'.net && OrderPhase(w', e.orderId) == PhaseAfter(e))
  }

  lemma EventFollowed(w: World, e: Message, cmd: Payload)
    requires Consistent(w) && w.tasks == map[] && e in w.net && e.body.IsEvent()
    requires !OrderPhase(w, e.body.orderId).Unstarted? && PhaseRank(OrderPhase(w, e.body.orderId)) == EventRank(e.body)
    requires e.body.orderId in w.db.orders && FollowUp(w.db.orders[e.body.orderId], e.body) == Some(cmd)
    ensures Followed(w, Exec(w, EventRun(e)), e.body, cmd)
  {
    var a := HandleEvent(0, e, true);
    EventHandled(w, a, cmd);
    OneThenPublished(w, a, Next(w, a), cmd);
    PhaseUnpublished(Next(w, a), Exec(w, EventRun(e)), e.body.orderId);
  }

  lemma OneThenPublished(w: World, a: Action, w1: World, b: Payload)
    requires Next(w, a) == w1 && w1.tasks == map[][0 := Pub(b)]
    ensures Exec(w, [a] + [Publish(0)])
         == w1.(net := w1.net + {Message(w1.nextId, b)}, nextId := w1.nextId + 1, tasks := map[])
  {
    ExecOne(w, a);
    ExecSnoc(w, [a], Publish(0));
    Publishes(w1, 0, map[], b);
  }

  lemma PhaseUnpublished(w: World, w': World, o: OrderId)
    requires w'.db == w.db && w'.hist == w.hist
    ensures OrderPhase(w', o) == OrderPhase(w, o)
  {
  }

  lemma EventHandled(w: World, a: Action, cmd: Payload)
    requires Consistent(w) && w.tasks == map[] && a.HandleEvent? && a.wk == 0 && a.m in w.net && a.m.body.IsEvent()
    requires var o := a.m.body.orderId;
             && !OrderPhase(w, o).Unstarted? && PhaseRank(OrderPhase(w, o)) == EventRank(a.m.body)
             && o in w.db.orders && FollowUp(w.db.orders[o], a.m.body) == Some(cmd)
    ensures var w' := Next(w, a);
            && w'.inv == w.inv && w'.pay == w.pay && w'.net == w.net && w'.nextId == w.nextId
            && w'.tasks == map[][0 := Pub(cmd)] && OrderPhase(w', a.m.body.orderId) == PhaseAfter(a.m.body)
  {
    WaitingMoves(w, a.m);
    EventFields(w, a, React(w.db, a.m));
    assert Backed(w, a.m.body);
    ReactMeaning(w, a.m);
    PhaseMoved(w, a);
  }

  lemma PhaseMoved(w: World, a: Action)
    requires Inv(w) && Moving(w, a)
    ensures OrderPhase(Next(w, a), a.m.body.orderId) == PhaseAfter(a.m.body)
  {
    MovedAbs(w, a);
    assert Abs(Next(w, a), a.m.body.orderId).phase == OrderPhase(Next(w, a), a.m.body.orderId);
  }

  function DeclinedEvent(c: Payload, tx: Uuid): Payload
    requires c.ProcessPaymentCmd?
  {
    PaymentProcessedEvent(c.sagaId, c.orderId, tx, false, SIMULATED_FAILURE)
  }

  ghost predicate Declined(w: World, w': World, c: Message)
    requires c.body.ProcessPaymentCmd?
  {
    true == (
      && w'.db == w.db && w'.inv == w.inv && w'.hist == w.hist && w'.tasks == map[]
      && Message(w.nextId + 1, DeclinedEvent(c.body, w.nextId)) in w'.net)
  }

  lemma DeclinedAndAnswered(w: World, c: Message)
    requires w.tasks == map[] && c in w.net && c.body.ProcessPaymentCmd?
    requires c.body.orderId !in w.pay.payments && c.id !in w.pay.processed
    ensures Declined(w, Exec(w, DeclineRun(c)), c)
  {
    PaymentSteps(w, c);
    ThenPublished(w, BeginPayment(0, c), LookupPayment(0), InsertPayment(0, true), AfterPayment(w, c), 0, map[],
                  DeclinedEvent(c.body, w.nextId));
  }

  ghost predicate PaymentDeclined(w: World, w': World, c: Payload)
    requires c.ProcessPaymentCmd?
  {
    true == (
      && w'.db == w.db && w'.inv == w.inv && w'.hist == w.hist && w'.net == w.net && w'.nextId == w.nextId + 1
      && w'.tasks == map[][0 := Pub(DeclinedEvent(c, w.nextId))])
  }

  function AfterPayment(w: World, c: Message): World {
    Next(Next(Next(w, BeginPayment(0, c)), LookupPayment(0)), InsertPayment(0, true))
  }

  lemma PaymentSteps(w: World, c: Message)
    requires w.tasks == map[] && c in w.net && c.body.ProcessPaymentCmd?
    requires c.body.orderId !in w.pay.payments && c.id !in w.pay.processed
    ensures PaymentDeclined(w, AfterPayment(w, c), c.body)
  {
    PaymentBegun(w, c);
    LookedUpAndInserted(w.(tasks := map[0 := PayLookup(c.body, c.id)]), c);
  }

  lemma PaymentBegun(w: World, c: Message)
    requires w.tasks == map[] && c in w.net && c.body.ProcessPaymentCmd? && c.id !in w.pay.processed
    ensures DoBeginPayment(w, 0, c) == w.(tasks := map[0 := PayLookup(c.body, c.id)])
  {
  }

  lemma LookedUpAndInserted(w: World, c: Message)
    requires w.tasks == map[0 := PayLookup(c.body, c.id)] && c.body.ProcessPaymentCmd?
    requires c.body.orderId !in w.pay.payments && c.id !in w.pay.processed
    ensures PaymentDeclined(w, DoInsertPayment(DoLookupPayment(w, 0), 0, true), c.body)
  {
    assert DoLookupPayment(w, 0) == w.(tasks := map[0 := PayInsert(c.body, c.id)]);
  }

  /** From the placed order to the two releasers, one worker doing everything in turn. */
  function RaceOpening(budget: nat, o: OrderId, sale: Sale): seq<Action> {
    var placed := OneOrder(o, sale);
    var w0, c := Exec(Init(budget), placed), FirstCommand(o, sale);
    var w1, e1 := Exec(w0, ReserveRun(c)), Message(w0.nextId, Reserved(c.body, true, ""));
    var w2, c2 := Exec(w1, EventRun(e1)), Message(w1.nextId, ProcessPaymentCmd(0, o, 1.0));
    placed + ReserveRun(c) + EventRun(e1) + PayRun(w2, c2)
  }

  lemma ReleaseIsCommanded(budget: nat, o: OrderId, sale: Sale) returns (c: Message)
    requires budget >= 1 && 1 <= sale.q <= sale.stock
    ensures Consistent(Exec(Init(budget), RaceOpening(budget, o, sale)))
    ensures ReleasersMeet(Exec(Init(budget), RaceOpening(budget, o, sale)), c, 0, 1) && c.body.orderId == o
  {
    var a0 := OneOrder(o, sale);
    var w0, c1 := Exec(Init(budget), a0), FirstCommand(o, sale);
    OneOrderRun(budget, o, sale);
    ReservedAndAnswered(w0, c1);
    var a1, w1 := a0 + ReserveRun(c1), Exec(w0, ReserveRun(c1));
    var e1 := Message(w0.nextId, Reserved(c1.body, true, ""));
    ExecConcat(Init(budget), a0, ReserveRun(c1));
    EveryRun(budget, a1);
    PhaseUnpublished(w0, w1, o);
    EventFollowed(w1, e1, ProcessPaymentCmd(0, o, 1.0));
    var a2, w2 := a1 + EventRun(e1), Exec(w1, EventRun(e1));
    ExecConcat(Init(budget), a1, EventRun(e1));
    EveryRun(budget, a2);
    EveryRun(budget, a0);
    ExecConcat(w0, ReserveRun(c1), EventRun(e1));
    Safety.OrderFixed(w0, ReserveRun(c1) + EventRun(e1), o);
    var c2 := Message(w1.nextId, ProcessPaymentCmd(0, o, 1.0));
    c := PaidAndReleased(w2, c2, sale.p);
    ExecConcat(Init(budget), a2, PayRun(w2, c2));
    EveryRun(budget, a2 + PayRun(w2, c2));
  }

  /** The payment is declined, and its event delivered. */
  function PayRun(w: World, c: Message): seq<Action>
    requires c.body.ProcessPaymentCmd?
  {
    DeclineRun(c) + EventRun(Message(w.nextId + 1, DeclinedEvent(c.body, w.nextId)))
  }

  lemma PaidAndReleased(w: World, c: Message, p: ProductId) returns (r: Message)
    requires Consistent(w) && w.tasks == map[] && c in w.net && c.body.ProcessPaymentCmd?
    requires OrderPhase(w, c.body.orderId).Paying? && c.body.orderId !in w.pay.payments && c.id !in w.pay.processed
    requires p in w.inv.rows && !HasLog(w.inv.logs, c.body.orderId, Release)
    requires c.body.orderId in w.db.orders && w.db.orders[c.body.orderId].productId == p
    ensures ReleasersMeet(Exec(w, PayRun(w, c)), r, 0, 1) && r.body.orderId == c.body.orderId
  {
    DeclinedAndAnswered(w, c);
    var w1, e := Exec(w, DeclineRun(c)), Message(w.nextId + 1, DeclinedEvent(c.body, w.nextId));
    ExecConcat(w, DeclineRun(c), EventRun(e));
    RunConsistent(w, DeclineRun(c));
    PhaseUnpublished(w, w1, c.body.orderId);
    r := LastEvent(w1, e, p);
  }

  /** A declined payment moves the saga to its release, and the command is out. */
  lemma LastEvent(w: World, e: Message, p: ProductId) returns (c: Message)
    requires Consistent(w) && w.tasks == map[] && e in w.net && e.body.PaymentProcessedEvent? && !e.body.success
    requires OrderPhase(w, e.body.orderId).Paying? && !HasLog(w.inv.logs, e.body.orderId, Release) && p in w.inv.rows
    requires e.body.orderId in w.db.orders && w.db.orders[e.body.orderId].productId == p
    ensures ReleasersMeet(Exec(w, EventRun(e)), c, 0, 1) && c.body.orderId == e.body.orderId
  {
    c := Message(w.nextId, FollowUp(w.db.orders[e.body.orderId], e.body).value);
    EventFollowed(w, e, c.body);
  }

  function RaceFailure(budget: nat, o: OrderId, sale: Sale, c: Message, text: string, e: Message): seq<Action> {
    RaceOpening(budget, o, sale) + (RaceRun(c, 0, 1, text) + [Publish(0), HandleEvent(0, e, true)])
  }

  /** A run from the empty system to a saga that is FAILED although its stock is back. */
  lemma {:induction false} RaceFromInit(budget: nat, o: OrderId, sale: Sale, text: string) returns (c: Message, e: Message)
    requires budget >= 1 && 1 <= sale.q <= sale.stock
    ensures ReleasersMeet(Exec(Init(budget), RaceOpening(budget, o, sale)), c, 0, 1) && c.body.orderId == o
    ensures var w := Exec(Init(budget), RaceFailure(budget, o, sale, c, text, e));
            Consistent(w) && ReleaseReportedFailed(w, o) && Abs(w, o).stock.Returned?
  {
    c := ReleaseIsCommanded(budget, o, sale);
    var w := Exec(Init(budget), RaceOpening(budget, o, sale));
    var race := ReleaseRaceReportsFailure(w, c, 0, 1, text);
    e := Message(Exec(w, RaceRun(c, 0, 1, text)).nextId, Released(c.body, false, text));
    ExecConcat(Init(budget), RaceOpening(budget, o, sale), race);
    EveryRun(budget, RaceFailure(budget, o, sale, c, text, e));
  }
}
