/** What the version column tells a worker that holds a stale snapshot. */
module OptimisticLock {
  import opened SagaTypes
  import opened InventoryDatabase
  import opened Protocol
  import opened Accounting
  import opened StockLedger
  import opened StockSafety

  /** One action leaves a row alone, overwrites its available quantity, or bumps its version by one. */
  lemma RowStep(w: World, a: Action, p: ProductId)
    requires p in w.inv.rows
    ensures p in Next(w, a).inv.rows
    ensures var r, r' := w.inv.rows[p], Next(w, a).inv.rows[p];
            || r' == r
            || (a.AdminPut? && a.p == p && r' == r.(available := a.qty))
            || r'.version == r.version + 1
  {
    if !a.CreateSku? && !a.AdminPut? && !a.CasReserve? && !a.CommitRelease? {
      InventoryUntouched(w, a);
    }
  }

  predicate NoAdminPut(actions: seq<Action>, p: ProductId) {
    forall i | 0 <= i < |actions| :: !(actions[i].AdminPut? && actions[i].p == p)
  }

  /** If the version is still the one that was read, no reserve or release committed in between: the
      reserved quantity is the one read, and only an admin PUT can have changed the available one. */
  lemma {:induction false} SameVersionSameRow(w: World, actions: seq<Action>, p: ProductId)
    requires p in w.inv.rows
    ensures p in Exec(w, actions).inv.rows
    ensures var r, r' := w.inv.rows[p], Exec(w, actions).inv.rows[p];
            && r.version <= r'.version
            && (r'.version == r.version ==> r'.reserved == r.reserved)
            && (r'.version == r.version && NoAdminPut(actions, p) ==> r' == r)
    decreases |actions|
  {
    if actions != [] {
      var before, last := actions[..|actions| - 1], actions[|actions| - 1];
      SameVersionSameRow(w, before, p);
      RowStep(Exec(w, before), last, p);
      if NoAdminPut(actions, p) {
        assert !(actions[|actions| - 1].AdminPut? && actions[|actions| - 1].p == p);
        assert NoAdminPut(before, p);
      }
    }
  }

  /** The compare-and-swap as the worker sees it: read at w, commit after any actions of others. */
  lemma CasIsUndisturbed(w: World, actions: seq<Action>, p: ProductId, o: OrderId, q: int)
    requires p in w.inv.rows
    requires ReserveTx(Exec(w, actions).inv, p, o, w.inv.rows[p].version, q).Applied?
    ensures var tx := ReserveTx(Exec(w, actions).inv, p, o, w.inv.rows[p].version, q);
            && tx.db.rows[p].reserved == w.inv.rows[p].reserved + q
            && tx.db.rows[p].available >= 0
            && (NoAdminPut(actions, p) ==> tx.db.rows[p].available == w.inv.rows[p].available - q)
  {
    SameVersionSameRow(w, actions, p);
  }

  function VersionOf(w: World, p: ProductId): int {
    if p in w.inv.rows then w.inv.rows[p].version else 0
  }

  lemma {:induction false} VersionGrows(w: World, actions: seq<Action>, p: ProductId)
    ensures VersionOf(w, p) <= VersionOf(Exec(w, actions), p)
    decreases |actions|
  {
    if actions != [] {
      var w1, last := Exec(w, actions[..|actions| - 1]), actions[|actions| - 1];
      VersionGrows(w, actions[..|actions| - 1], p);
      if p in w1.inv.rows {
        RowStep(w1, last, p);
      } else {
        AbsentRow(w1, last, p);
      }
    }
  }

  lemma AbsentRow(w: World, a: Action, p: ProductId)
    requires p !in w.inv.rows
    ensures p in Next(w, a).inv.rows ==> Next(w, a).inv.rows[p].version == 0
  {
    if !a.CreateSku? && !a.AdminPut? && !a.CasReserve? && !a.CommitRelease? {
      InventoryUntouched(w, a);
    }
  }

  /** A compare-and-swap that finds no row was overtaken by a reserve or release of someone else. */
  lemma {:induction false} LostRace(w: World, actions: seq<Action>, p: ProductId, o: OrderId, q: int)
    requires p in w.inv.rows && w.inv.rows[p].available >= q && NoAdminPut(actions, p)
    requires ReserveTx(Exec(w, actions).inv, p, o, w.inv.rows[p].version, q).NoRow?
    ensures VersionOf(Exec(w, actions), p) >= VersionOf(w, p) + 1
  {
    SameVersionSameRow(w, actions, p);
  }

  lemma LogsGrow(w: World, a: Action)
    ensures w.inv.logs <= Next(w, a).inv.logs
  {
    if !a.CreateSku? && !a.AdminPut? && !a.CasReserve? && !a.CommitRelease? {
      InventoryUntouched(w, a);
    }
  }

  lemma {:induction false} RunLogsGrow(w: World, actions: seq<Action>)
    ensures w.inv.logs <= Exec(w, actions).inv.logs
    decreases |actions|
  {
    if actions != [] {
      RunLogsGrow(w, actions[..|actions| - 1]);
      LogsGrow(Exec(w, actions[..|actions| - 1]), actions[|actions| - 1]);
    }
  }

  /** With both actions logged for an order, unique actions leave no room for another entry. */
  lemma BothLogged(logs: seq<InventoryLog>, logs': seq<InventoryLog>, e: InventoryLog)
    requires logs <= logs' && UniqueActions(logs') && e in logs'
    requires HasLog(logs, e.orderId, Reserve) && HasLog(logs, e.orderId, Release)
    ensures e in logs
  {
    var x :| x in logs && x.orderId == e.orderId && x.action == e.action;
    var i :| 0 <= i < |logs| && logs[i] == x;
    var j :| 0 <= j < |logs'| && logs'[j] == e;
    assert logs'[i] == x;
  }

  /** An order that was reserved and released never touches stock again. */
  lemma {:induction false} ReleasedForGood(w: World, actions: seq<Action>, o: OrderId)
    requires Consistent(w) && HasLog(w.inv.logs, o, Release)
    ensures forall e :: e in Exec(w, actions).inv.logs && e.orderId == o ==> e in w.inv.logs
  {
    RunLogsGrow(w, actions);
    RunConsistent(w, actions);
    forall e | e in Exec(w, actions).inv.logs && e.orderId == o ensures e in w.inv.logs {
      BothLogged(w.inv.logs, Exec(w, actions).inv.logs, e);
    }
  }
}
