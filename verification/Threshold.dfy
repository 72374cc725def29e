/** The retry budget that exact allocation needs: stock / q, and not one less. */
module Threshold {
  import opened SagaTypes
  import opened InventoryDatabase
  import opened Protocol
  import opened StockSafety
  import opened OptimisticLock
  import opened Completion
  import opened Allocation
  import opened Openings

  /** A run of the sale after which every order has been answered. */
  ghost predicate FairSale(budget: nat, sale: Sale, actions: seq<Action>) {
    var w := Exec(Opening(budget, sale), actions);
    NoAdminPut(actions, sale.p) && Uniform(w, sale) && forall o :: o in OrdersFor(w, sale.p) ==> Answered(w, o)
  }

  ghost predicate AllocatesExactly(w: World, sale: Sale)
    requires sale.q >= 1
  {
    |Winners(w, sale.p)| == Min(|OrdersFor(w, sale.p)|, sale.stock / sale.q)
  }

  // ---------------------------------------------------------------- a worker that is overtaken

  /** Order 0 has been overtaken i times by orders 1 to i, each of which has its stock and its answer. */
  ghost predicate Overtaken(w: World, budget: nat, sale: Sale, cmd: Payload, i: nat) {
    true == (
      && w.maxRetries == budget && cmd == ReserveInventoryCmd(cmd.sagaId, 0, sale.p, sale.q)
      && w.tasks == map[0 := LoopOrGiveUp(cmd, i, budget)]
      && sale.p in w.inv.rows && w.inv.rows[sale.p] == Inventory(sale.stock - i * sale.q, i * sale.q, i)
      && OrdersUpTo(w, sale, i) && FreshIds(w)
      && |w.inv.logs| == i && (forall k :: 0 <= k < i ==> w.inv.logs[k] == InventoryLog(sale.p, k + 1, Reserve, sale.q))
      && (forall o :: 1 <= o <= i ==> Answered(w, o)))
  }

  ghost predicate OrdersUpTo(w: World, sale: Sale, i: nat) {
    && (forall o: OrderId :: o in w.db.orders <==> o <= i)
    && (forall o: OrderId :: o in w.db.byOrder ==> o <= i)
    && (forall o :: o in w.db.orders ==> w.db.orders[o].productId == sale.p && w.db.orders[o].quantity == sale.q)
  }

  /** Worker 0 reads the row, then worker 1 takes a command. */
  function Racing(m: Message): seq<Action> {
    [ReadStock(0), BeginReserve(1, m), ReadStock(1)]
  }

  /** Worker 1 gets there first. */
  function Overtaking(): seq<Action> {
    [CasReserve(1), Publish(1), CasReserve(0)]
  }

  lemma FirstReads(w: World, cmd: Payload, i: nat)
    requires w.tasks == map[0 := ReserveLoop(cmd, i)] && cmd.ReserveInventoryCmd?
    requires cmd.productId in w.inv.rows && w.inv.rows[cmd.productId].version == i
    requires w.inv.rows[cmd.productId].available >= cmd.quantity
    ensures DoReadStock(w, 0) == w.(tasks := map[0 := ReserveCas(cmd, i, i)])
  {
  }

  lemma SecondBegins(w: World, t: Task, m: Message)
    requires w.tasks == map[0 := t] && m in w.net && m.body.ReserveInventoryCmd? && w.maxRetries > 0
    requires !HasLog(w.inv.logs, m.body.orderId, Reserve)
    ensures DoBeginReserve(w, 1, m) == w.(tasks := map[0 := t, 1 := ReserveLoop(m.body, 0)])
  {
  }

  lemma SecondReads(w: World, t: Task, cmd: Payload, i: nat)
    requires w.tasks == map[0 := t, 1 := ReserveLoop(cmd, 0)] && cmd.ReserveInventoryCmd?
    requires cmd.productId in w.inv.rows && w.inv.rows[cmd.productId].version == i
    requires w.inv.rows[cmd.productId].available >= cmd.quantity
    ensures DoReadStock(w, 1) == w.(tasks := map[0 := t, 1 := ReserveCas(cmd, 0, i)])
  {
  }

  lemma Race(w: World, cmd: Payload, m: Message, i: nat)
    requires i < w.maxRetries && cmd.ReserveInventoryCmd? && m.body.ReserveInventoryCmd? && m in w.net
    requires w.tasks == map[0 := LoopOrGiveUp(cmd, i, w.maxRetries)]
    requires cmd.productId == m.body.productId && cmd.productId in w.inv.rows && w.inv.rows[cmd.productId].version == i
    requires w.inv.rows[cmd.productId].available >= cmd.quantity == m.body.quantity
    requires !HasLog(w.inv.logs, m.body.orderId, Reserve)
    ensures Exec(w, Racing(m)) == w.(tasks := map[0 := ReserveCas(cmd, i, i), 1 := ReserveCas(m.body, 0, i)])
  {
    Exec3(w, ReadStock(0), BeginReserve(1, m), ReadStock(1));
    FirstReads(w, cmd, i);
    var w1 := w.(tasks := map[0 := ReserveCas(cmd, i, i)]);
    SecondBegins(w1, ReserveCas(cmd, i, i), m);
    SecondReads(w.(tasks := map[0 := ReserveCas(cmd, i, i), 1 := ReserveLoop(m.body, 0)]), ReserveCas(cmd, i, i), m.body, i);
  }

  // ---------------------------------------------------------------- and is overtaken once more

  lemma SecondWins(w: World, t: Task, c: Payload, i: nat)
    requires w.tasks == map[0 := t, 1 := ReserveCas(c, 0, i)] && c.ReserveInventoryCmd?
    requires c.productId in w.inv.rows && w.inv.rows[c.productId].version == i
    requires w.inv.rows[c.productId].available >= c.quantity && !HasLog(w.inv.logs, c.orderId, Reserve)
    ensures DoCasReserve(w, 1)
         == w.(inv := Taken(w.inv, c), tasks := map[0 := t, 1 := Pub(Reserved(c, true, ""))])
  {
  }

  lemma FirstMisses(w: World, c: Payload, i: nat)
    requires w.tasks == map[0 := ReserveCas(c, i, i)] && c.ReserveInventoryCmd?
    requires c.productId in w.inv.rows && w.inv.rows[c.productId].version != i
    ensures DoCasReserve(w, 0) == w.(tasks := map[0 := LoopOrGiveUp(c, i + 1, w.maxRetries)])
  {
  }

  lemma Overtake(w: World, cmd: Payload, c: Payload, i: nat)
    requires w.tasks == map[0 := ReserveCas(cmd, i, i), 1 := ReserveCas(c, 0, i)]
    requires cmd.ReserveInventoryCmd? && c.ReserveInventoryCmd? && cmd.productId == c.productId && c.productId in w.inv.rows
    requires w.inv.rows[c.productId].version == i && w.inv.rows[c.productId].available >= c.quantity
    requires !HasLog(w.inv.logs, c.orderId, Reserve)
    ensures Exec(w, Overtaking()) == w.(
              inv := Taken(w.inv, c),
              net := w.net + {Message(w.nextId, Reserved(c, true, ""))},
              nextId := w.nextId + 1,
              tasks := map[0 := LoopOrGiveUp(cmd, i + 1, w.maxRetries)])
  {
    Exec3(w, CasReserve(1), Publish(1), CasReserve(0));
    SecondWins(w, ReserveCas(cmd, i, i), c, i);
    var w1 := DoCasReserve(w, 1);
    assert w1.tasks == map[0 := ReserveCas(cmd, i, i)][1 := Pub(Reserved(c, true, ""))];
    Publishes(w1, 1, map[0 := ReserveCas(cmd, i, i)], Reserved(c, true, ""));
    FirstMisses(DoPublish(w1, 1), cmd, i);
  }

  // ---------------------------------------------------------------- the run that falls short

  lemma LogsOfOvertaken(w: World, budget: nat, sale: Sale, cmd: Payload, i: nat, o: OrderId)
    requires Overtaken(w, budget, sale, cmd, i)
    ensures HasLog(w.inv.logs, o, Reserve) <==> 1 <= o <= i
  {
    if 1 <= o <= i {
      assert w.inv.logs[o - 1] in w.inv.logs;
    }
  }

  lemma RoundOf(w: World, budget: nat, sale: Sale, cmd: Payload, i: nat, w1: World)
    requires Overtaken(w, budget, sale, cmd, i) && i < budget && sale.q >= 1 && sale.stock - i * sale.q >= sale.q
    requires OrderPlaced(w, w1, i + 1, sale)
    ensures var c := CommandOf(w, i + 1, sale);
            Exec(w1, Racing(c) + Overtaking()) == w1.(
              inv := Taken(w.inv, c.body),
              net := w1.net + {Message(w1.nextId, Reserved(c.body, true, ""))},
              nextId := w1.nextId + 1,
              tasks := map[0 := LoopOrGiveUp(cmd, i + 1, budget)])
  {
    var c := CommandOf(w, i + 1, sale);
    LogsOfOvertaken(w, budget, sale, cmd, i, i + 1);
    Race(w1, cmd, c, i);
    ExecConcat(w1, Racing(c), Overtaking());
    Overtake(Exec(w1, Racing(c)), cmd, c.body, i);
  }

  lemma EnoughLeft(sale: Sale, i: nat)
    requires sale.q >= 1 && i < sale.stock / sale.q
    ensures sale.stock - i * sale.q >= sale.q
  {
    assert sale.stock == sale.q * (sale.stock / sale.q) + sale.stock % sale.q;
    Multiples(sale.q, sale.stock / sale.q, i);
  }

  function FullRound(w: World, sale: Sale, i: nat): seq<Action> {
    Placing(1, i + 1, sale) + (Racing(CommandOf(w, i + 1, sale)) + Overtaking())
  }

  lemma OneRound(w: World, budget: nat, sale: Sale, cmd: Payload, i: nat)
    requires Overtaken(w, budget, sale, cmd, i) && i < budget && sale.q >= 1 && sale.stock - i * sale.q >= sale.q
    ensures Overtaken(Exec(w, FullRound(w, sale, i)), budget, sale, cmd, i + 1)
  {
    var w1 := Exec(w, Placing(1, i + 1, sale));
    Places(w, 1, i + 1, sale);
    ExecConcat(w, Placing(1, i + 1, sale), Racing(CommandOf(w, i + 1, sale)) + Overtaking());
    RoundOf(w, budget, sale, cmd, i, w1);
    StillOvertaken(w, budget, sale, cmd, i, w1, Exec(w, FullRound(w, sale, i)));
  }

  lemma StillOvertaken(w: World, budget: nat, sale: Sale, cmd: Payload, i: nat, w1: World, w': World)
    requires Overtaken(w, budget, sale, cmd, i) && OrderPlaced(w, w1, i + 1, sale)
    requires var c := CommandOf(w, i + 1, sale);
             w' == w1.(
               inv := Taken(w.inv, c.body),
               net := w1.net + {Message(w1.nextId, Reserved(c.body, true, ""))},
               nextId := w1.nextId + 1,
               tasks := map[0 := LoopOrGiveUp(cmd, i + 1, budget)])
    ensures Overtaken(w', budget, sale, cmd, i + 1)
  {
    var c := CommandOf(w, i + 1, sale);
    assert Answered(w', i + 1) by {
      assert Message(w1.nextId, Reserved(c.body, true, "")) in w'.net;
    }
    forall o | 1 <= o <= i ensures Answered(w', o) {
      assert Answered(w, o);
      var m :| m in w.net && m.body.InventoryReservedEvent? && m.body.orderId == o;
      assert m in w'.net;
    }
    assert (i + 1) * sale.q == i * sale.q + sale.q;
  }

  predicate NoPuts(actions: seq<Action>) {
    forall i | 0 <= i < |actions| :: !actions[i].AdminPut?
  }

  /** As many rounds as the budget allows. */
  lemma {:induction false} Rounds(budget: nat, sale: Sale, i: nat) returns (actions: seq<Action>, cmd: Payload)
    requires sale.q >= 1 && i <= budget < sale.stock / sale.q
    ensures NoPuts(actions) && Overtaken(Exec(Opening(budget, sale), actions), budget, sale, cmd, i)
  {
    if i == 0 {
      actions, cmd := FirstOrder(budget, sale);
    } else {
      var before;
      before, cmd := Rounds(budget, sale, i - 1);
      var w := Exec(Opening(budget, sale), before);
      EnoughLeft(sale, i - 1);
      OneRound(w, budget, sale, cmd, i - 1);
      ExecConcat(Opening(budget, sale), before, FullRound(w, sale, i - 1));
      actions := before + FullRound(w, sale, i - 1);
    }
  }

  lemma FirstOrder(budget: nat, sale: Sale) returns (actions: seq<Action>, cmd: Payload)
    requires sale.q >= 1
    ensures NoPuts(actions) && Overtaken(Exec(Opening(budget, sale), actions), budget, sale, cmd, 0)
  {
    OpeningIs(budget, sale);
    var w := Opening(budget, sale);
    var w1 := Exec(w, Placing(0, 0, sale));
    var c := CommandOf(w, 0, sale);
    Places(w, 0, 0, sale);
    ExecSnoc(w, Placing(0, 0, sale), BeginReserve(0, c));
    FirstBegins(w1, c);
    actions, cmd := Placing(0, 0, sale) + [BeginReserve(0, c)], c.body;
    assert w1.inv.logs == [];
  }

  lemma FirstBegins(w: World, m: Message)
    requires w.tasks == map[] && m in w.net && m.body.ReserveInventoryCmd? && w.inv.logs == []
    ensures DoBeginReserve(w, 0, m) == w.(tasks := map[0 := LoopOrGiveUp(m.body, 0, w.maxRetries)])
  {
  }

  lemma {:induction false} RangeSize(s: set<nat>, n: nat)
    requires forall x: nat :: x in s <==> x < n
    ensures |s| == n
  {
    if n > 0 {
      RangeSize(s - {n - 1}, n - 1);
    } else {
      assert s == {};
    }
  }

  /** Order 0 has used up its budget; its refusal is published although there is stock for it: of budget + 1
      orders only `budget` have stock. */
  lemma {:induction false} FallsShort(budget: nat, sale: Sale) returns (actions: seq<Action>)
    requires sale.q >= 1 && budget < sale.stock / sale.q
    ensures FairSale(budget, sale, actions)
    ensures !AllocatesExactly(Exec(Opening(budget, sale), actions), sale)
    ensures |Winners(Exec(Opening(budget, sale), actions), sale.p)| == budget
    ensures |OrdersFor(Exec(Opening(budget, sale), actions), sale.p)| == budget + 1
  {
    var before, cmd := Rounds(budget, sale, budget);
    var w := Exec(Opening(budget, sale), before);
    actions := before + [Publish(0)];
    ExecSnoc(Opening(budget, sale), before, Publish(0));
    Refused(w, budget, sale, cmd);
    ShortCount(w, Next(w, Publish(0)), budget, sale, cmd);
  }

  lemma Refused(w: World, budget: nat, sale: Sale, cmd: Payload)
    requires Overtaken(w, budget, sale, cmd, budget)
    ensures var w' := Next(w, Publish(0));
            && w'.db == w.db && w'.inv == w.inv && w.net <= w'.net
            && Message(w.nextId, Reserved(cmd, false, INSUFFICIENT_STOCK)) in w'.net
  {
  }

  lemma ShortCount(w: World, w': World, budget: nat, sale: Sale, cmd: Payload)
    requires Overtaken(w, budget, sale, cmd, budget) && sale.q >= 1 && budget < sale.stock / sale.q
    requires w'.db == w.db && w'.inv == w.inv && w.net <= w'.net
    requires Message(w.nextId, Reserved(cmd, false, INSUFFICIENT_STOCK)) in w'.net
    ensures Uniform(w', sale) && !AllocatesExactly(w', sale)
    ensures |Winners(w', sale.p)| == budget && |OrdersFor(w', sale.p)| == budget + 1
    ensures forall o :: o in OrdersFor(w', sale.p) ==> Answered(w', o)
  {
    RangeSize(OrdersFor(w', sale.p), budget + 1);
    forall o: OrderId ensures o in Winners(w', sale.p) <==> 1 <= o <= budget {
      LogsOfOvertaken(w, budget, sale, cmd, budget, o);
    }
    assert Winners(w', sale.p) == OrdersFor(w', sale.p) - {0};
    forall o | o in OrdersFor(w', sale.p) ensures Answered(w', o) {
      if o > 0 {
        assert Answered(w, o);
      }
    }
  }

  // ---------------------------------------------------------------- the threshold

  lemma OpeningIsStart(budget: nat, sale: Sale)
    ensures Consistent(Opening(budget, sale)) && SaleStart(Opening(budget, sale), sale)
    ensures Opening(budget, sale).maxRetries == budget
  {
    OpeningIs(budget, sale);
    EveryRun(budget, [CreateSku(sale.p, sale.stock)]);
    ExecOne(Init(budget), CreateSku(sale.p, sale.stock));
  }

  /** Every fair sale allocates exactly if and only if the retry budget is at least stock / q. */
  lemma {:induction false} AllocationThreshold(budget: nat, sale: Sale)
    requires sale.q >= 1
    ensures (forall actions :: FairSale(budget, sale, actions) ==>
               AllocatesExactly(Exec(Opening(budget, sale), actions), sale))
            <==> budget >= sale.stock / sale.q
  {
    if budget >= sale.stock / sale.q {
      OpeningIsStart(budget, sale);
      forall actions | FairSale(budget, sale, actions)
        ensures AllocatesExactly(Exec(Opening(budget, sale), actions), sale)
      {
        ExactAllocation(Opening(budget, sale), actions, sale);
      }
    } else {
      var short := FallsShort(budget, sale);
    }
  }
}
