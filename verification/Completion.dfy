/** From every consistent world a listed saga can be driven to its end by recovery rounds alone. */
module Completion {
  import opened SagaTypes
  import opened OrderDatabase
  import opened InventoryDatabase
  import opened Protocol
  import opened Invariant
  import opened Accounting
  import opened StockSafety
  import opened OptimisticLock
  import opened Progress

  // ---------------------------------------------------------------- short runs

  lemma Exec2(w: World, a: Action, b: Action)
    ensures Exec(w, [a, b]) == Next(Next(w, a), b)
  {
    ExecOne(w, a);
    ExecSnoc(w, [a], b);
    assert [a] + [b] == [a, b];
  }

  lemma Exec3(w: World, a: Action, b: Action, c: Action)
    ensures Exec(w, [a, b, c]) == Next(Next(Next(w, a), b), c)
  {
    Exec2(w, a, b);
    ExecSnoc(w, [a, b], c);
    assert [a, b] + [c] == [a, b, c];
  }

  /** Steps of workers only: no new orders, stock records, edits or manual payments. */
  predicate OnlyWorkers(run: seq<Action>) {
    forall i | 0 <= i < |run| :: run[i].Worker().Some?
  }

  lemma WorkersConcat(before: seq<Action>, after: seq<Action>)
    requires OnlyWorkers(before) && OnlyWorkers(after)
    ensures OnlyWorkers(before + after)
  {
  }

  // ---------------------------------------------------------------- choosing workers and listings

  ghost function Above(s: set<nat>): (n: nat)
    ensures forall x :: x in s ==> x < n
  {
    if s == {} then 0
    else
      var x :| x in s;
      var rest := Above(s - {x});
      assert forall y :: y in s ==> y == x || y in s - {x};
      if x < rest then rest else x + 1
  }

  lemma {:induction false} Enumerate(s: set<Uuid>) returns (q: seq<Uuid>)
    ensures forall x :: x in q <==> x in s
    ensures forall i, j :: 0 <= i < j < |q| ==> q[i] != q[j]
    decreases s
  {
    if s == {} {
      q := [];
    } else {
      var x :| x in s;
      var rest := Enumerate(s - {x});
      q := [x] + rest;
    }
  }

  /** A listing of all sagas of a status that happens to return s first. */
  lemma ListingWithFirst(db: OrderDb, s: Uuid) returns (listing: seq<Uuid>)
    requires s in db.sagas
    ensures IsListing(db, db.sagas[s].status, listing) && |listing| > 0 && listing[0] == s
  {
    var others := set x | x in db.sagas && db.sagas[x].status == db.sagas[s].status && x != s;
    var rest := Enumerate(others);
    listing := [s] + rest;
    forall i, j | 0 <= i < j < |listing| ensures listing[i] != listing[j] {
      assert j > 0 && rest[j - 1] in rest;
    }
  }

  // ---------------------------------------------------------------- handling a command

  /** Worker wk is about to publish a reply to command c; the order database is untouched. */
  ghost predicate Replying(w: World, w': World, wk: WorkerId, c: Payload) {
    true == (wk in w'.tasks && w'.tasks[wk].Pub? && w'.tasks[wk].body.IsEvent()
             && Answers(w'.tasks[wk].body, c) && w'.db == w.db)
  }

  lemma ReserveBegun(w: World, wk: WorkerId, c: Message)
    requires Idle(w, wk) && c in w.net && c.body.ReserveInventoryCmd?
    ensures var w1 := DoBeginReserve(w, wk, c);
            Replying(w, w1, wk, c.body) || w1 == Assign(w, wk, ReserveLoop(c.body, 0))
  {
  }

  lemma StockRead(w: World, wk: WorkerId, c: Payload)
    requires c.ReserveInventoryCmd? && c.productId in w.inv.rows
    ensures var w1 := Assign(w, wk, ReserveLoop(c, 0)); var w2 := DoReadStock(w1, wk); var r := w.inv.rows[c.productId];
            Replying(w, w2, wk, c)
            || (r.available >= c.quantity && w2 == Assign(w1, wk, ReserveCas(c, 0, r.version)))
  {
  }

  /** Without a retry budget the command is refused at once. */
  lemma RefusedUnread(w: World, wk: WorkerId, c: Message)
    requires Idle(w, wk) && c in w.net && c.body.ReserveInventoryCmd? && w.maxRetries == 0
    ensures Replying(w, DoBeginReserve(w, wk, c), wk, c.body)
  {
  }

  /** Nothing intervened, so the version still matches. */
  lemma CasSucceeds(w: World, w2: World, wk: WorkerId, c: Payload)
    requires c.ReserveInventoryCmd? && c.productId in w.inv.rows && !HasLog(w.inv.logs, c.orderId, Reserve)
    requires w.inv.rows[c.productId].available >= c.quantity && w2.db == w.db && w2.inv == w.inv
    requires wk in w2.tasks && w2.tasks[wk] == ReserveCas(c, 0, w.inv.rows[c.productId].version)
    ensures Replying(w, DoCasReserve(w2, wk), wk, c)
  {
  }

  lemma ReserveHandled(w: World, wk: WorkerId, c: Message) returns (run: seq<Action>)
    requires Idle(w, wk) && c in w.net && c.body.ReserveInventoryCmd?
    requires c.body.productId in w.inv.rows || w.maxRetries == 0
    ensures Replying(w, Exec(w, run), wk, c.body) && |run| <= 3 && OnlyWorkers(run)
  {
    var a1, a2, a3 := BeginReserve(wk, c), ReadStock(wk), CasReserve(wk);
    ReserveBegun(w, wk, c);
    if w.maxRetries == 0 {
      RefusedUnread(w, wk, c);
    } else {
      StockRead(w, wk, c.body);
    }
    if Replying(w, Next(w, a1), wk, c.body) {
      run := [a1];
      ExecOne(w, a1);
    } else if Replying(w, Next(Next(w, a1), a2), wk, c.body) {
      run := [a1, a2];
      Exec2(w, a1, a2);
    } else {
      run := [a1, a2, a3];
      Exec3(w, a1, a2, a3);
      CasSucceeds(w, Next(Next(w, a1), a2), wk, c.body);
    }
  }

  lemma PaymentLookedUp(w: World, wk: WorkerId, c: Message)
    requires Idle(w, wk) && c in w.net && c.body.ProcessPaymentCmd? && c.id !in w.pay.processed
    ensures var w1 := DoBeginPayment(w, wk, c); var w2 := DoLookupPayment(w1, wk);
            Replying(w, w2, wk, c.body)
            || (c.body.orderId !in w.pay.payments && w2 == Assign(w1, wk, PayInsert(c.body, c.id)) && w2.pay == w.pay && w2.db == w.db)
  {
  }

  lemma PaymentInserts(w: World, w2: World, wk: WorkerId, c: Payload, id: Uuid)
    requires c.ProcessPaymentCmd? && c.orderId !in w.pay.payments && id !in w.pay.processed
    requires w2.pay == w.pay && w2.db == w.db && wk in w2.tasks && w2.tasks[wk] == PayInsert(c, id)
    ensures Replying(w, DoInsertPayment(w2, wk, false), wk, c)
  {
  }

  lemma PaymentHandled(w: World, wk: WorkerId, c: Message) returns (run: seq<Action>)
    requires Idle(w, wk) && c in w.net && c.body.ProcessPaymentCmd? && c.id !in w.pay.processed
    ensures Replying(w, Exec(w, run), wk, c.body) && |run| <= 3 && OnlyWorkers(run)
  {
    var a1, a2, a3 := BeginPayment(wk, c), LookupPayment(wk), InsertPayment(wk, false);
    PaymentLookedUp(w, wk, c);
    if Replying(w, Next(Next(w, a1), a2), wk, c.body) {
      run := [a1, a2];
      Exec2(w, a1, a2);
    } else {
      run := [a1, a2, a3];
      Exec3(w, a1, a2, a3);
      PaymentInserts(w, Next(Next(w, a1), a2), wk, c.body, c.id);
    }
  }

  lemma ReleaseBegun(w: World, wk: WorkerId, c: Message)
    requires Idle(w, wk) && c in w.net && c.body.ReleaseInventoryCmd?
    ensures var w1 := DoBeginRelease(w, wk, c);
            Replying(w, w1, wk, c.body) || Replying(w, DoCommitRelease(w1, wk, false, ""), wk, c.body)
  {
  }

  lemma ReleaseHandled(w: World, wk: WorkerId, c: Message) returns (run: seq<Action>)
    requires Idle(w, wk) && c in w.net && c.body.ReleaseInventoryCmd?
    ensures Replying(w, Exec(w, run), wk, c.body) && |run| <= 3 && OnlyWorkers(run)
  {
    var a1, a2 := BeginRelease(wk, c), CommitRelease(wk, false, "");
    ReleaseBegun(w, wk, c);
    if Replying(w, Next(w, a1), wk, c.body) {
      run := [a1];
      ExecOne(w, a1);
    } else {
      run := [a1, a2];
      Exec2(w, a1, a2);
    }
  }

  /** A worker that meets no fault answers a fresh command within three steps. */
  lemma {:induction false} CommandHandled(w: World, wk: WorkerId, c: Message) returns (run: seq<Action>)
    requires Idle(w, wk) && c in w.net && CommandRank(c.body) >= 1
    requires c.body.ReserveInventoryCmd? ==> c.body.productId in w.inv.rows || w.maxRetries == 0
    requires c.body.ProcessPaymentCmd? ==> c.id !in w.pay.processed
    ensures Replying(w, Exec(w, run), wk, c.body) && |run| <= 3 && OnlyWorkers(run)
  {
    if c.body.ReserveInventoryCmd? {
      run := ReserveHandled(w, wk, c);
    } else if c.body.ProcessPaymentCmd? {
      run := PaymentHandled(w, wk, c);
    } else {
      run := ReleaseHandled(w, wk, c);
    }
  }

  lemma ReplyPublished(w: World, w': World, wk: WorkerId, c: Payload)
    requires Replying(w, w', wk, c)
    ensures var w1 := Next(w', Publish(wk)); var e := Message(w'.nextId, w'.tasks[wk].body);
            e in w1.net && Idle(w1, wk) && e.body.IsEvent() && EventRank(e.body) == CommandRank(c) && e.body.sagaId == c.sagaId
  {
  }

  /** Publishing the reply is the fourth step at most. */
  lemma {:induction false} CommandAnswered(w: World, wk: WorkerId, c: Message) returns (run: seq<Action>, e: Message)
    requires Idle(w, wk) && c in w.net && CommandRank(c.body) >= 1
    requires c.body.ReserveInventoryCmd? ==> c.body.productId in w.inv.rows || w.maxRetries == 0
    requires c.body.ProcessPaymentCmd? ==> c.id !in w.pay.processed
    ensures |run| <= 4 && OnlyWorkers(run) && Idle(Exec(w, run), wk)
    ensures e in Exec(w, run).net && w.nextId <= e.id && e.body.IsEvent() && Answers(e.body, c.body)
  {
    var handle := CommandHandled(w, wk, c);
    var w1 := Exec(w, handle);
    run, e := handle + [Publish(wk)], Message(w1.nextId, w1.tasks[wk].body);
    ExecSnoc(w, handle, Publish(wk));
    ReplyPublished(w, w1, wk, c.body);
    IdsGrow(w, handle);
  }

  /** Publishing the reply and delivering it takes the saga past the step of the command. */
  lemma ReplyDelivered(w: World, w': World, wk: WorkerId, c: Payload) returns (run: seq<Action>)
    requires Consistent(w') && Replying(w, w', wk, c)
    ensures SagaRank(Exec(w', run), c.sagaId) < CommandRank(c) && |run| == 2 && OnlyWorkers(run)
  {
    run := DeliveryRun(w', wk);
    var e := Message(w'.nextId, w'.tasks[wk].body);
    Exec2(w', Publish(wk), HandleEvent(wk, e, true));
    StepConsistent(w', Publish(wk));
    ReplyPublished(w, w', wk, c);
    DeliveredNext(Next(w', Publish(wk)), wk, e, c);
  }

  function DeliveryRun(w: World, wk: WorkerId): (run: seq<Action>)
    requires wk in w.tasks && w.tasks[wk].Pub?
    ensures |run| == 2 && OnlyWorkers(run)
  {
    [Publish(wk), HandleEvent(wk, Message(w.nextId, w.tasks[wk].body), true)]
  }

  lemma DeliveredNext(w: World, wk: WorkerId, e: Message, c: Payload)
    requires Consistent(w) && e in w.net && Idle(w, wk) && e.body.IsEvent()
    requires EventRank(e.body) == CommandRank(c) && e.body.sagaId == c.sagaId
    ensures SagaRank(Next(w, HandleEvent(wk, e, true)), c.sagaId) < CommandRank(c)
  {
    DeliveryPasses(w, wk, e, true);
  }

  // ---------------------------------------------------------------- one round

  /** A recovery tick that re-sends the command of s with a fresh id. */
  lemma Resent(w: World, wk: WorkerId, s: Uuid) returns (run: seq<Action>)
    requires Idle(w, wk) && CommandFor(w, s).Some?
    ensures |run| == 2 && OnlyWorkers(run)
    ensures Exec(w, run).net == w.net + {Message(w.nextId, CommandFor(w, s).value)}
    ensures Exec(w, run).db == w.db && Exec(w, run).inv == w.inv && Exec(w, run).pay == w.pay
    ensures forall x :: x != wk && x !in w.tasks ==> x !in Exec(w, run).tasks
  {
    var listing := ListingWithFirst(w.db, s);
    var status := w.db.sagas[s].status;
    run := [ListSagas(wk, status, listing), ResendNext(wk, true)];
    Exec2(w, ListSagas(wk, status, listing), ResendNext(wk, true));
    assert Snapshots(w.db, listing)[0] == SagaRow(s, w.db.sagas[s]);
    assert Next(w, ListSagas(wk, status, listing)) == Assign(w, wk, Recover(Snapshots(w.db, listing)));
  }

  lemma NotDoneIsListed(w: World, s: Uuid)
    requires Consistent(w) && s in w.db.sagas && w.db.sagas[s].step != Done
    ensures CommandFor(w, s).Some?
    ensures var c := CommandFor(w, s).value;
            CommandRank(c) >= 1 && c.orderId == w.db.sagas[s].orderId
            && (c.ReserveInventoryCmd? ==> c.productId == w.db.orders[c.orderId].productId)
  {
    assert w.db.sagas[s].orderId in w.db.orders;
    assert RowOk(w.db.sagas[s], w.db.orders[w.db.sagas[s].orderId].status, Moves(w, s));
  }

  /** The reserve command of the saga is answered: its product has a row, or there is no retry budget and the
      row is never read. */
  ghost predicate Answerable(w: World, s: Uuid) {
    && s in w.db.sagas && w.db.sagas[s].orderId in w.db.orders
    && (w.db.orders[w.db.sagas[s].orderId].productId in w.inv.rows || w.maxRetries == 0)
  }

  /** An undisturbed round exists from every world in which the saga is not done. */
  lemma {:induction false} RoundExists(w: World, s: Uuid) returns (run: seq<Action>)
    requires Consistent(w) && Answerable(w, s) && w.db.sagas[s].step != Done
    ensures SagaRank(Exec(w, run), s) < SagaRank(w, s) && |run| <= 7 && OnlyWorkers(run)
  {
    var rw := Above(w.tasks.Keys);
    NotDoneIsListed(w, s);
    CommandNamesRank(w, s);
    var resend := Resent(w, rw, s);
    var c := Message(w.nextId, CommandFor(w, s).value);
    assert c.id !in w.pay.processed;
    RunConsistent(w, resend);
    RunBudget(w, resend);
    var rest := HandledAndDelivered(Exec(w, resend), rw + 1, c);
    ExecConcat(w, resend, rest);
    WorkersConcat(resend, rest);
    run := resend + rest;
  }

  /** A command is handled, and its reply delivered. */
  lemma HandledAndDelivered(w: World, wk: WorkerId, c: Message) returns (run: seq<Action>)
    requires Consistent(w) && Idle(w, wk) && c in w.net && CommandRank(c.body) >= 1
    requires c.body.ReserveInventoryCmd? ==> c.body.productId in w.inv.rows || w.maxRetries == 0
    requires c.body.ProcessPaymentCmd? ==> c.id !in w.pay.processed
    ensures SagaRank(Exec(w, run), c.body.sagaId) < CommandRank(c.body) && |run| <= 5 && OnlyWorkers(run)
  {
    var handle := CommandHandled(w, wk, c);
    var w1 := Exec(w, handle);
    RunConsistent(w, handle);
    var deliver := ReplyDelivered(w, w1, wk, c.body);
    ExecConcat(w, handle, deliver);
    WorkersConcat(handle, deliver);
    run := handle + deliver;
  }

  lemma StillPresent(w: World, a: Action, p: ProductId)
    ensures p in w.inv.rows ==> p in Next(w, a).inv.rows
  {
    if p in w.inv.rows {
      RowStep(w, a, p);
    }
  }

  lemma StaysAnswerable(w: World, run: seq<Action>, s: Uuid)
    requires Consistent(w) && Answerable(w, s)
    ensures Answerable(Exec(w, run), s)
    decreases |run|
  {
    if run != [] {
      var before := run[..|run| - 1];
      StaysAnswerable(w, before, s);
      RunConsistent(w, before);
      StepConsistent(Exec(w, before), run[|run| - 1]);
      StepNeverRaises(Exec(w, before), Exec(w, run), s);
      BudgetFixed(Exec(w, before), run[|run| - 1]);
      StillPresent(Exec(w, before), run[|run| - 1], Exec(w, before).db.orders[Exec(w, before).db.sagas[s].orderId].productId);
    }
  }

  /** Recovery can always finish: at most 21 further steps lead any saga whose product exists to DONE. */
  lemma {:induction false} CanAlwaysFinish(w: World, s: Uuid) returns (run: seq<Action>)
    requires Consistent(w) && Answerable(w, s)
    ensures s in Exec(w, run).db.sagas && Exec(w, run).db.sagas[s].step == Done
    ensures |run| <= 7 * SagaRank(w, s) && OnlyWorkers(run)
    decreases SagaRank(w, s)
  {
    if w.db.sagas[s].step == Done {
      run := [];
    } else {
      var first := RoundExists(w, s);
      RunConsistent(w, first);
      StaysAnswerable(w, first, s);
      var rest := CanAlwaysFinish(Exec(w, first), s);
      ExecConcat(w, first, rest);
      run := first + rest;
    }
  }
}
