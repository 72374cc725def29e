/** Short runs from the empty system: one product is stocked and one order is placed. */
module Openings {
  import opened SagaTypes
  import opened InventoryDatabase
  import opened Protocol
  import opened Invariant
  import opened Completion
  import opened Allocation

  /** The system just after the stock record of the sale was created. */
  function Opening(budget: nat, sale: Sale): World {
    Next(Init(budget), CreateSku(sale.p, sale.stock))
  }

  lemma OpeningIs(budget: nat, sale: Sale)
    ensures Opening(budget, sale) == Init(budget).(
              inv := InventoryDb(map[sale.p := Inventory(sale.stock, 0, 0)], []),
              supplied := map[sale.p := sale.stock])
  {
  }

  // ---------------------------------------------------------------- one more order

  ghost predicate FreshIds(w: World) {
    forall s :: s in w.db.sagas ==> s < w.nextId
  }

  function Placing(wk: WorkerId, o: OrderId, sale: Sale): seq<Action> {
    [CreateOrder(o, sale.p, sale.q, 1.0), StartSaga(wk, o), Publish(wk)]
  }

  function CommandOf(w: World, o: OrderId, sale: Sale): Message {
    Message(w.nextId + 1, ReserveInventoryCmd(w.nextId, o, sale.p, sale.q))
  }

  /** Order o has been placed: its reserve command is on the network. */
  ghost predicate OrderPlaced(w: World, w': World, o: OrderId, sale: Sale) {
    true == (
      && w'.inv == w.inv && w'.tasks == w.tasks && w'.maxRetries == w.maxRetries
      && w'.net == w.net + {CommandOf(w, o, sale)}
      && w'.db.orders == w.db.orders[o := Order(sale.p, sale.q, 1.0, Pending)]
      && w'.db.byOrder.Keys == w.db.byOrder.Keys + {o} && FreshIds(w')
      && w'.pay == w.pay && OrderPhase(w', o).Reserving?)
  }

  lemma Stores(w: World, wk: WorkerId, o: OrderId, sale: Sale)
    requires Idle(w, wk) && o !in w.db.orders && o !in w.db.byOrder && FreshIds(w) && sale.q >= 1
    ensures var w1 := DoCreateOrder(w, o, sale.p, sale.q, 1.0);
            && w1 == w.(db := w.db.(orders := w.db.orders[o := Order(sale.p, sale.q, 1.0, Pending)]))
            && w.nextId !in w1.db.sagas
  {
  }

  lemma Starts(w: World, wk: WorkerId, o: OrderId, sale: Sale)
    requires Idle(w, wk) && o in w.db.orders && o !in w.db.byOrder && FreshIds(w)
    requires w.db.orders[o] == Order(sale.p, sale.q, 1.0, Pending)
    ensures var w2 := DoStartSaga(w, wk, o);
            && w2.db.orders == w.db.orders && w2.db.byOrder.Keys == w.db.byOrder.Keys + {o} && FreshIds(w2)
            && w2.pay == w.pay && OrderPhase(w2, o).Reserving?
            && w2.inv == w.inv && w2.net == w.net && w2.maxRetries == w.maxRetries && w2.nextId == w.nextId + 1
            && w2.tasks == w.tasks[wk := Pub(CommandOf(w, o, sale).body)]
  {
    assert w.nextId !in w.db.sagas;
  }

  lemma Places(w: World, wk: WorkerId, o: OrderId, sale: Sale)
    requires Idle(w, wk) && o !in w.db.orders && o !in w.db.byOrder && FreshIds(w) && sale.q >= 1
    ensures OrderPlaced(w, Exec(w, Placing(wk, o, sale)), o, sale)
  {
    Exec3(w, CreateOrder(o, sale.p, sale.q, 1.0), StartSaga(wk, o), Publish(wk));
    Stores(w, wk, o, sale);
    Starts(DoCreateOrder(w, o, sale.p, sale.q, 1.0), wk, o, sale);
    Publishes(DoStartSaga(DoCreateOrder(w, o, sale.p, sale.q, 1.0), wk, o), wk, w.tasks, CommandOf(w, o, sale).body);
  }

  lemma Publishes(w: World, wk: WorkerId, others: map<WorkerId, Task>, b: Payload)
    requires wk !in others && w.tasks == others[wk := Pub(b)]
    ensures DoPublish(w, wk) == w.(net := w.net + {Message(w.nextId, b)}, nextId := w.nextId + 1, tasks := others)
  {
    assert others[wk := Pub(b)] - {wk} == others;
  }

  /** Three steps that leave worker wk about to publish b, and the publish. */
  lemma ThenPublished(w: World, a1: Action, a2: Action, a3: Action, w3: World, wk: WorkerId,
                      others: map<WorkerId, Task>, b: Payload)
    requires Next(Next(Next(w, a1), a2), a3) == w3
    requires wk !in others && w3.tasks == others[wk := Pub(b)]
    ensures Exec(w, [a1, a2, a3] + [Publish(wk)])
         == w3.(net := w3.net + {Message(w3.nextId, b)}, nextId := w3.nextId + 1, tasks := others)
  {
    Exec3(w, a1, a2, a3);
    ExecSnoc(w, [a1, a2, a3], Publish(wk));
    Publishes(w3, wk, others, b);
  }

  // ---------------------------------------------------------------- one order

  function OneOrder(o: OrderId, sale: Sale): seq<Action> {
    [CreateSku(sale.p, sale.stock)] + Placing(0, o, sale)
  }

  function FirstCommand(o: OrderId, sale: Sale): Message {
    Message(1, ReserveInventoryCmd(0, o, sale.p, sale.q))
  }

  /** Nothing has happened but that order o was placed. */
  ghost predicate OneOrderPlaced(w: World, budget: nat, o: OrderId, sale: Sale) {
    true == (
      && FirstCommand(o, sale) in w.net && w.tasks == map[] && OrderPhase(w, o).Reserving?
      && w.maxRetries == budget && w.pay.payments == map[]
      && o in w.db.orders && w.db.orders[o] == Order(sale.p, sale.q, 1.0, Pending)
      && w.inv == InventoryDb(map[sale.p := Inventory(sale.stock, 0, 0)], []))
  }

  lemma OneOrderRun(budget: nat, o: OrderId, sale: Sale)
    requires sale.q >= 1
    ensures OneOrderPlaced(Exec(Init(budget), OneOrder(o, sale)), budget, o, sale)
  {
    OpeningIs(budget, sale);
    ExecOne(Init(budget), CreateSku(sale.p, sale.stock));
    Places(Opening(budget, sale), 0, o, sale);
    ExecConcat(Init(budget), [CreateSku(sale.p, sale.stock)], Placing(0, o, sale));
  }
}
