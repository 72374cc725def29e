/** The HTTP entry points that change state: orders, stock records, stock edits, manual payments. */
module Api {
  import opened SagaTypes
  import opened Protocol
  import opened Accounting
  import opened Safety
  import opened Audit
  import opened Network
  import opened Cluster
  import opened Orchestrator

  datatype Created = Rejected | Unstarted | Accepted

  class Api {
    const sys: System
    const orchestrator: SagaOrchestrator

    constructor (system: System, saga: SagaOrchestrator)
      requires saga.sys == system
      ensures sys == system && orchestrator == saga
    {
      sys, orchestrator := system, saga;
    }

    /** POST /orders: the order row is stored first, then, while others run, the saga is started; a failure
        to start it leaves the order behind. */
    method PostOrder(wk: WorkerId, o: OrderId, p: ProductId, q: int, amount: Amount, between: seq<Action>, gap: Gap,
                     attempts: nat -> Attempt)
      returns (res: Created, ghost trace: seq<Action>)
      requires orchestrator.sys == sys && Idle(sys.World(), wk) && OfOthers(between, wk) && OfOthers(gap.others, wk)
      modifies sys.Parts()
      ensures Idle(sys.World(), wk) && sys.World() == Exec(old(sys.World()), trace)
      ensures res.Rejected? <==> o in old(sys.World()).db.orders || q < 1 || amount <= 0.0
      ensures res.Rejected? ==> trace == []
      ensures !res.Rejected? ==> OrderIs(sys.World(), o, p, q, amount)
      ensures !res.Rejected? ==> |trace| > |between| && trace[..|between| + 1] == [CreateOrder(o, p, q, amount)] + between
      ensures var w1 := Exec(old(sys.World()), [CreateOrder(o, p, q, amount)] + between);
              var creates := !gap.fault && o !in w1.db.byOrder && w1.nextId !in w1.db.sagas;
              && (res.Accepted? <==> !res.Rejected? && creates && Acknowledged(attempts))
              && (!res.Rejected? ==>
                    var rest := trace[|between| + 1..];
                    && Own(rest, wk) == (if creates then [StartSaga(wk, o), LastStep(wk, attempts)] else [])
                    && Theirs(rest, wk) == (if creates then gap.others else []))
      ensures res.Accepted? ==>
        exists s :: SagaOf(sys.World(), s, o) && Answered(old(sys.World()), sys.World(), ReserveInventoryCmd(s, o, p, q))
    {
      ghost var start := sys.World();
      trace := [];
      var stored := sys.orderDb.CreateOrder(o, p, q, amount);
      if !stored {
        return Rejected, trace;
      }
      ExecOne(start, CreateOrder(o, p, q, amount));
      trace := sys.Elsewhere(wk, between, start, [CreateOrder(o, p, q, amount)]);
      OrderPlaced(start, o, p, q, amount, between);
      IdsGrow(start, trace);
      var ok, created, sagaId;
      ghost var rest, sofar := trace, trace;
      ok, created, sagaId, rest := orchestrator.StartSaga(wk, o, Order(p, q, amount, Pending), gap, attempts);
      ExecConcat(start, sofar, rest);
      trace := sofar + rest;
      res := if ok then Accepted else Unstarted;
      assert trace[|between| + 1..] == rest && trace[..|between| + 1] == sofar;
      StillOrdered(start, o, p, q, amount, between, rest);
    }

    /** POST /inventory. */
    method PostSku(p: ProductId, qty: int) returns (ok: bool)
      modifies sys.Parts()
      ensures sys.World() == Next(old(sys.World()), CreateSku(p, qty))
      ensures ok <==> qty >= 0 && p !in old(sys.World()).inv.rows
      ensures ok ==> sys.World().inv.rows == old(sys.World()).inv.rows[p := Inventory(qty, 0, 0)]
    {
      if qty < 0 {
        return false;
      }
      ok := sys.inventory.Create(p, qty);
      if ok {
        sys.supplied := sys.supplied[p := qty];
      }
    }

    /** PUT /inventory/:product_id. */
    method PutStock(p: ProductId, qty: int) returns (ok: bool)
      modifies sys.Parts()
      ensures sys.World() == Next(old(sys.World()), AdminPut(p, qty))
      ensures ok <==> qty >= 0 && p in old(sys.World()).inv.rows
      ensures ok ==> var r := old(sys.World()).inv.rows[p];
                     sys.World().inv.rows == old(sys.World()).inv.rows[p := Inventory(qty, r.reserved, r.version)]
    {
      if qty < 0 {
        return false;
      }
      var row := sys.inventory.GetByProductID(p);
      ok := sys.inventory.UpdateAvailableQty(p, qty);
      if ok {
        sys.supplied := sys.supplied[p := (if p in sys.supplied then sys.supplied[p] else 0) + qty - row.value.available];
      }
    }

    /** POST /payments: a PENDING row outside any saga. */
    method PostPaymentRow(o: OrderId, amount: Amount) returns (ok: bool)
      modifies sys.Parts()
      ensures sys.World() == Next(old(sys.World()), PostPayment(o, amount))
      ensures ok <==> amount > 0.0 && o !in old(sys.World()).pay.payments
      ensures ok ==> sys.World().pay.payments ==
                       old(sys.World()).pay.payments[o := Payment(amount, PaymentPending, old(sys.World()).nextId)]
    {
      if amount <= 0.0 {
        return false;
      }
      ok := sys.payments.Create(o, Payment(amount, PaymentPending, sys.pub.nextId));
      if ok {
        var txId := sys.pub.NewUUID();
      }
    }
  }

  /** The order is stored as it was asked for, the amount included. */
  predicate OrderIs(w: World, o: OrderId, p: ProductId, q: int, amount: Amount) {
    && o in w.db.orders && w.db.orders[o].productId == p && w.db.orders[o].quantity == q
    && w.db.orders[o].totalAmount == amount
  }

  lemma OrderPlaced(w: World, o: OrderId, p: ProductId, q: int, amount: Amount, between: seq<Action>)
    requires o !in w.db.orders && q >= 1 && amount > 0.0
    ensures OrderIs(Exec(w, [CreateOrder(o, p, q, amount)] + between), o, p, q, amount)
  {
    ExecOne(w, CreateOrder(o, p, q, amount));
    ExecConcat(w, [CreateOrder(o, p, q, amount)], between);
    OrderFixed(Next(w, CreateOrder(o, p, q, amount)), between, o);
  }

  lemma StillOrdered(w: World, o: OrderId, p: ProductId, q: int, amount: Amount, between: seq<Action>, rest: seq<Action>)
    requires o !in w.db.orders && q >= 1 && amount > 0.0
    ensures OrderIs(Exec(w, [CreateOrder(o, p, q, amount)] + between + rest), o, p, q, amount)
  {
    OrderPlaced(w, o, p, q, amount, between + rest);
    assert [CreateOrder(o, p, q, amount)] + (between + rest) == [CreateOrder(o, p, q, amount)] + between + rest;
  }

  /** Whatever is done before and after, an order that is posted for an amount is charged that amount or nothing. */
  lemma {:induction false} ChargedAsPosted(maxRetries: nat, before: seq<Action>, o: OrderId, p: ProductId, q: int,
                                           amount: Amount, after: seq<Action>)
    requires o !in Exec(Init(maxRetries), before).db.orders && q >= 1 && amount > 0.0
    requires Paid(Exec(Init(maxRetries), before + ([CreateOrder(o, p, q, amount)] + after)), o)
    ensures Exec(Init(maxRetries), before + ([CreateOrder(o, p, q, amount)] + after)).pay.payments[o].amount == amount
  {
    var actions := [CreateOrder(o, p, q, amount)] + after;
    ExecConcat(Init(maxRetries), before, actions);
    OrderPlaced(Exec(Init(maxRetries), before), o, p, q, amount, after);
    ChargedTheTotal(maxRetries, before + actions, o);
  }
}
