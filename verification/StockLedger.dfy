/** Stock rows against the log table: each row is a function of the log and of what was supplied. */
module StockLedger {
  import opened SagaTypes
  import opened InventoryDatabase

  /** The number of log entries of a product. */
  function EntriesOf(logs: seq<InventoryLog>, p: ProductId): nat {
    if logs == [] then 0
    else EntriesOf(logs[..|logs| - 1], p) + (if logs[|logs| - 1].productId == p then 1 else 0)
  }

  /** What one entry holds: a RESERVE of the product whose order has no RELEASE in `logs`. */
  function Holds(e: InventoryLog, logs: seq<InventoryLog>, p: ProductId): int {
    if e.productId == p && e.action == Reserve && !HasLog(logs, e.orderId, Release) then e.quantity else 0
  }

  function HeldIn(part: seq<InventoryLog>, logs: seq<InventoryLog>, p: ProductId): int {
    if part == [] then 0
    else HeldIn(part[..|part| - 1], logs, p) + Holds(part[|part| - 1], logs, p)
  }

  /** The sum of the quantities of the RESERVE logs of a product that lack a RELEASE log. */
  function HeldQuantity(logs: seq<InventoryLog>, p: ProductId): int {
    HeldIn(logs, logs, p)
  }

  ghost predicate UniqueActions(logs: seq<InventoryLog>) {
    forall i, j :: 0 <= i < j < |logs| ==> logs[i].orderId != logs[j].orderId || logs[i].action != logs[j].action
  }

  /** Entry j is a RELEASE of something that an earlier entry reserved. */
  ghost predicate Undoes(logs: seq<InventoryLog>, j: nat)
    requires j < |logs|
  {
    logs[j].(action := Reserve) in logs[..j]
  }

  ghost predicate StockOk(db: InventoryDb, supplied: map<ProductId, int>) {
    && UniqueActions(db.logs)
    && (forall j :: 0 <= j < |db.logs| && db.logs[j].action == Release ==> Undoes(db.logs, j))
    && (forall e :: e in db.logs ==> e.productId in db.rows && e.quantity >= 1)
    && (forall p :: p in db.rows ==> RowFollows(db, supplied, p))
  }

  /** Version, reserved and available quantity of one product. */
  ghost predicate RowFollows(db: InventoryDb, supplied: map<ProductId, int>, p: ProductId) {
    && p in db.rows && p in supplied
    && db.rows[p].version == EntriesOf(db.logs, p)
    && db.rows[p].reserved == HeldQuantity(db.logs, p)
    && db.rows[p].available >= 0
    && db.rows[p].available + db.rows[p].reserved == supplied[p]
  }

  // ---------------------------------------------------------------- sums

  lemma EntriesAppend(logs: seq<InventoryLog>, e: InventoryLog, p: ProductId)
    ensures EntriesOf(logs + [e], p) == EntriesOf(logs, p) + (if e.productId == p then 1 else 0)
  {
    assert (logs + [e])[..|logs|] == logs;
  }

  lemma {:induction false} SameHeld(part: seq<InventoryLog>, logs: seq<InventoryLog>, logs': seq<InventoryLog>, p: ProductId)
    requires forall o: OrderId :: HasLog(logs, o, Release) <==> HasLog(logs', o, Release)
    ensures HeldIn(part, logs, p) == HeldIn(part, logs', p)
  {
    if part != [] {
      SameHeld(part[..|part| - 1], logs, logs', p);
    }
  }

  lemma HeldReserve(logs: seq<InventoryLog>, e: InventoryLog, p: ProductId)
    requires e.action == Reserve && !HasLog(logs, e.orderId, Release)
    ensures HeldQuantity(logs + [e], p) == HeldQuantity(logs, p) + (if e.productId == p then e.quantity else 0)
  {
    forall o: OrderId ensures HasLog(logs, o, Release) <==> HasLog(logs + [e], o, Release) {
      HasLogAppend(logs, e, o, Release);
    }
    SameHeld(logs, logs, logs + [e], p);
    assert (logs + [e])[..|logs|] == logs;
  }

  /** A RELEASE takes out exactly what the RESERVE of its order put in. */
  lemma {:induction false} HeldReleaseIn(part: seq<InventoryLog>, logs: seq<InventoryLog>, e: InventoryLog, p: ProductId)
    requires e.action == Release && !HasLog(logs, e.orderId, Release) && UniqueActions(part)
    requires forall x :: x in part && x.orderId == e.orderId && x.action == Reserve ==> x == e.(action := Reserve)
    ensures HeldIn(part, logs + [e], p)
         == HeldIn(part, logs, p) - (if e.productId == p && e.(action := Reserve) in part then e.quantity else 0)
  {
    if part != [] {
      var front, last := part[..|part| - 1], part[|part| - 1];
      HeldReleaseIn(front, logs, e, p);
      HasLogAppend(logs, e, last.orderId, Release);
      assert part == front + [last];
      forall i | 0 <= i < |front| ensures front[i] != last {
        assert part[i] == front[i] && part[|part| - 1] == last;
      }
    }
  }

  lemma HeldRelease(logs: seq<InventoryLog>, e: InventoryLog, p: ProductId)
    requires e.action == Release && !HasLog(logs, e.orderId, Release) && UniqueActions(logs)
    requires e.(action := Reserve) in logs
    ensures HeldQuantity(logs + [e], p) == HeldQuantity(logs, p) - (if e.productId == p then e.quantity else 0)
  {
    forall x | x in logs && x.orderId == e.orderId && x.action == Reserve ensures x == e.(action := Reserve) {
      var i :| 0 <= i < |logs| && logs[i] == x;
      var j :| 0 <= j < |logs| && logs[j] == e.(action := Reserve);
    }
    HeldReleaseIn(logs, logs, e, p);
    assert (logs + [e])[..|logs|] == logs;
  }

  lemma {:induction false} HeldNonNegative(part: seq<InventoryLog>, logs: seq<InventoryLog>, p: ProductId)
    requires forall e :: e in part ==> e.quantity >= 1
    ensures HeldIn(part, logs, p) >= 0
  {
    if part != [] {
      assert part[|part| - 1] in part;
      HeldNonNegative(part[..|part| - 1], logs, p);
    }
  }

  lemma {:induction false} NothingLogged(part: seq<InventoryLog>, logs: seq<InventoryLog>, p: ProductId)
    requires forall e :: e in part ==> e.productId != p
    ensures HeldIn(part, logs, p) == 0 && EntriesOf(part, p) == 0
  {
    if part != [] {
      assert part[|part| - 1] in part;
      NothingLogged(part[..|part| - 1], logs, p);
    }
  }

  // ---------------------------------------------------------------- transactions

  lemma UniqueAppend(logs: seq<InventoryLog>, e: InventoryLog)
    requires UniqueActions(logs) && !HasLog(logs, e.orderId, e.action)
    ensures UniqueActions(logs + [e])
  {
    forall i | 0 <= i < |logs| ensures logs[i].orderId != e.orderId || logs[i].action != e.action {
      assert logs[i] in logs;
    }
  }

  lemma UndoesAppend(logs: seq<InventoryLog>, e: InventoryLog)
    requires forall j :: 0 <= j < |logs| && logs[j].action == Release ==> Undoes(logs, j)
    requires e.action == Release ==> e.(action := Reserve) in logs
    ensures forall j :: 0 <= j < |logs| + 1 && (logs + [e])[j].action == Release ==> Undoes(logs + [e], j)
  {
    forall j | 0 <= j < |logs| + 1 && (logs + [e])[j].action == Release ensures Undoes(logs + [e], j) {
      assert (logs + [e])[..j] == logs[..j];
      assert j == |logs| ==> logs[..j] == logs;
    }
  }

  lemma ReserveKeeps(db: InventoryDb, supplied: map<ProductId, int>, p: ProductId, o: OrderId, v: int, q: int)
    requires StockOk(db, supplied) && q >= 1 && !HasLog(db.logs, o, Release)
    requires ReserveTx(db, p, o, v, q).Applied?
    ensures StockOk(ReserveTx(db, p, o, v, q).db, supplied)
  {
    var e := InventoryLog(p, o, Reserve, q);
    UniqueAppend(db.logs, e);
    UndoesAppend(db.logs, e);
    forall x | x in db.rows ensures RowFollows(ReserveTx(db, p, o, v, q).db, supplied, x) {
      assert RowFollows(db, supplied, x);
      EntriesAppend(db.logs, e, x);
      HeldReserve(db.logs, e, x);
    }
  }

  /** Releasing what was reserved: the clamp of reserved_qty at zero has no effect. */
  lemma {:induction false} ReleaseKeeps(db: InventoryDb, supplied: map<ProductId, int>, p: ProductId, o: OrderId, q: int)
    requires StockOk(db, supplied) && InventoryLog(p, o, Reserve, q) in db.logs
    requires ReleaseTx(db, p, o, q).Applied?
    ensures db.rows[p].reserved >= q
    ensures StockOk(ReleaseTx(db, p, o, q).db, supplied)
  {
    var e := InventoryLog(p, o, Release, q);
    assert e.(action := Reserve) == InventoryLog(p, o, Reserve, q);
    UniqueAppend(db.logs, e);
    UndoesAppend(db.logs, e);
    HeldRelease(db.logs, e, p);
    assert RowFollows(db, supplied, p);
    HeldNonNegative(db.logs + [e], db.logs + [e], p);
    forall x | x in db.rows ensures RowFollows(ReleaseTx(db, p, o, q).db, supplied, x) {
      assert RowFollows(db, supplied, x);
      EntriesAppend(db.logs, e, x);
      HeldRelease(db.logs, e, x);
    }
  }
}
