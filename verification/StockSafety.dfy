/** The stock ledger holds in every reachable world. */
module StockSafety {
  import opened SagaTypes
  import opened InventoryDatabase
  import opened Protocol
  import opened OrderTransaction
  import opened Invariant
  import opened Preservation
  import opened Accounting
  import opened StockLedger

  lemma CreateSkuStock(w: World, p: ProductId, qty: int)
    requires StockOk(w.inv, w.supplied)
    ensures StockOk(DoCreateSku(w, p, qty).inv, DoCreateSku(w, p, qty).supplied)
  {
    var w' := DoCreateSku(w, p, qty);
    forall x | x in w'.inv.rows ensures RowFollows(w'.inv, w'.supplied, x) {
      if x in w.inv.rows {
        assert RowFollows(w.inv, w.supplied, x);
      } else {
        NothingLogged(w.inv.logs, w.inv.logs, x);
      }
    }
  }

  lemma AdminPutStock(w: World, p: ProductId, qty: int)
    requires StockOk(w.inv, w.supplied)
    ensures StockOk(DoAdminPut(w, p, qty).inv, DoAdminPut(w, p, qty).supplied)
  {
    var w' := DoAdminPut(w, p, qty);
    forall x | x in w'.inv.rows ensures RowFollows(w'.inv, w'.supplied, x) {
      assert RowFollows(w.inv, w.supplied, x);
    }
  }

  /** A task that is about to release has the reservation of its order behind it. */
  lemma ReleaseHasReserve(w: World, cmd: Payload)
    requires Inv(w) && cmd.ReleaseInventoryCmd? && Backed(w, cmd)
    ensures InventoryLog(cmd.productId, cmd.orderId, Reserve, cmd.quantity) in w.inv.logs
  {
    assert TxnOk(Abs(w, cmd.orderId));
    assert HasLog(w.inv.logs, cmd.orderId, Reserve);
    var e :| e in w.inv.logs && e.orderId == cmd.orderId && e.action == Reserve;
    assert e == InventoryLog(cmd.productId, cmd.orderId, Reserve, cmd.quantity);
  }

  lemma CasReserveStock(w: World, wk: WorkerId)
    requires Inv(w) && StockOk(w.inv, w.supplied)
    ensures StockOk(DoCasReserve(w, wk).inv, w.supplied) && DoCasReserve(w, wk).supplied == w.supplied
  {
    if wk in w.tasks && w.tasks[wk].ReserveCas? && w.tasks[wk].cmd.ReserveInventoryCmd? {
      var t := w.tasks[wk];
      assert TaskOk(w, t);
      if ReserveTx(w.inv, t.cmd.productId, t.cmd.orderId, t.version, t.cmd.quantity).Applied? {
        ReserveKeeps(w.inv, w.supplied, t.cmd.productId, t.cmd.orderId, t.version, t.cmd.quantity);
      }
    }
  }

  lemma CommitReleaseStock(w: World, wk: WorkerId, fault: bool, errorText: string)
    requires Inv(w) && StockOk(w.inv, w.supplied)
    ensures StockOk(DoCommitRelease(w, wk, fault, errorText).inv, w.supplied)
    ensures DoCommitRelease(w, wk, fault, errorText).supplied == w.supplied
  {
    if wk in w.tasks && w.tasks[wk].ReleaseTxn? && w.tasks[wk].cmd.ReleaseInventoryCmd? && !fault {
      var cmd := w.tasks[wk].cmd;
      assert TaskOk(w, w.tasks[wk]);
      if ReleaseTx(w.inv, cmd.productId, cmd.orderId, cmd.quantity).Applied? {
        ReleaseHasReserve(w, cmd);
        ReleaseKeeps(w.inv, w.supplied, cmd.productId, cmd.orderId, cmd.quantity);
      }
    }
  }

  lemma StockKept(w: World, a: Action)
    requires Inv(w) && StockOk(w.inv, w.supplied)
    ensures StockOk(Next(w, a).inv, Next(w, a).supplied)
  {
    if a.CreateSku? {
      CreateSkuStock(w, a.p, a.qty);
    } else if a.AdminPut? {
      AdminPutStock(w, a.p, a.qty);
    } else if a.CasReserve? {
      CasReserveStock(w, a.wk);
    } else if a.CommitRelease? {
      CommitReleaseStock(w, a.wk, a.fault, a.errorText);
    } else {
      InventoryUntouched(w, a);
    }
  }

  /** Everything that is known of a reachable world. */
  ghost predicate Consistent(w: World) {
    true == (Inv(w) && Books(w) && StockOk(w.inv, w.supplied))
  }

  lemma {:induction false} StepConsistent(w: World, a: Action)
    requires Consistent(w)
    ensures Consistent(Next(w, a)) && Evolves(w, Next(w, a))
  {
    StepKeeps(w, a);
    BooksKept(w, a);
    StockKept(w, a);
  }

  lemma {:induction false} RunConsistent(w: World, actions: seq<Action>)
    requires Consistent(w)
    ensures Consistent(Exec(w, actions))
    decreases |actions|
  {
    if actions != [] {
      RunConsistent(w, actions[..|actions| - 1]);
      StepConsistent(Exec(w, actions[..|actions| - 1]), actions[|actions| - 1]);
    }
  }

  lemma {:induction false} EveryRun(maxRetries: nat, actions: seq<Action>)
    ensures Consistent(Exec(Init(maxRetries), actions))
  {
    InitOk(maxRetries);
    InitBooks(maxRetries);
    RunConsistent(Init(maxRetries), actions);
  }
}
