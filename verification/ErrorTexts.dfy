/** What the last_error column of a saga says, and where its text comes from. */
module ErrorTexts {
  import opened SagaTypes
  import opened OrderDatabase
  import opened Protocol
  import opened Invariant
  import opened Preservation
  import opened Accounting
  import opened StockSafety

  // ---------------------------------------------------------------- the texts of the replies

  /** A reply gives a reason exactly when it reports a failure; a failed release may carry any text. */
  predicate Speaks(b: Payload) {
    match b
    case InventoryReservedEvent(_, _, _, _, ok, reason) => reason == if ok then "" else "INSUFFICIENT_STOCK"
    case PaymentProcessedEvent(_, _, _, ok, reason) => reason == if ok then "" else "SIMULATED_FAILURE"
    case InventoryReleasedEvent(_, _, _, _, ok, reason) => ok ==> reason == ""
    case _ => true
  }

  ghost predicate AllSpeak(w: World) {
    true == (
      && (forall m :: m in w.net ==> Speaks(m.body))
      && (forall wk :: wk in w.tasks && w.tasks[wk].Pub? ==> Speaks(w.tasks[wk].body)))
  }

  /** A step that publishes nothing and gives at most one worker a new task. */
  lemma TaskSpeaks(w: World, w': World, wk: WorkerId)
    requires AllSpeak(w) && w'.net == w.net
    requires forall x :: x in w'.tasks && x != wk ==> x in w.tasks && w'.tasks[x] == w.tasks[x]
    requires wk in w'.tasks && w'.tasks[wk].Pub? ==> Speaks(w'.tasks[wk].body)
    ensures AllSpeak(w')
  {
  }

  lemma SendSpeaks(w: World, b: Payload)
    requires AllSpeak(w) && Speaks(b)
    ensures AllSpeak(Send(w, b))
  {
  }

  lemma ReserveSpeaks(w: World, a: Action)
    requires AllSpeak(w) && (a.BeginReserve? || a.ReadStock? || a.CasReserve?)
    ensures AllSpeak(Next(w, a))
  {
    TaskSpeaks(w, Next(w, a), a.wk);
  }

  lemma ReleaseSpeaks(w: World, a: Action)
    requires AllSpeak(w) && (a.BeginRelease? || a.CommitRelease?)
    ensures AllSpeak(Next(w, a))
  {
    TaskSpeaks(w, Next(w, a), a.wk);
  }

  lemma PaymentSpeaks(w: World, a: Action)
    requires AllSpeak(w) && (a.BeginPayment? || a.LookupPayment? || a.InsertPayment?)
    ensures AllSpeak(Next(w, a))
  {
    TaskSpeaks(w, Next(w, a), a.wk);
  }

  lemma OrderServiceSpeaks(w: World, a: Action)
    requires AllSpeak(w) && (a.StartSaga? || a.HandleEvent? || a.Crash? || a.ListSagas?)
    ensures AllSpeak(Next(w, a))
  {
    TaskSpeaks(w, Next(w, a), a.wk);
  }

  lemma PublishSpeaks(w: World, wk: WorkerId)
    requires AllSpeak(w)
    ensures AllSpeak(DoPublish(w, wk))
  {
    if wk in w.tasks && w.tasks[wk].Pub? {
      TaskSpeaks(w, Finish(w, wk), wk);
      SendSpeaks(Finish(w, wk), w.tasks[wk].body);
    }
  }

  lemma ResendSpeaks(w: World, wk: WorkerId, delivered: bool)
    requires AllSpeak(w)
    ensures AllSpeak(DoResendNext(w, wk, delivered))
  {
    if wk in w.tasks && w.tasks[wk].Recover? {
      TaskSpeaks(w, Finish(w, wk), wk);
      if w.tasks[wk].todo != [] {
        var w1 := Assign(w, wk, Recover(w.tasks[wk].todo[1..]));
        TaskSpeaks(w, w1, wk);
        var c := RecoveryCommand(w.db, w.tasks[wk].todo[0]);
        if c.Some? {
          SendSpeaks(w1, c.value);
        }
      }
    }
  }

  lemma SpeakingKept(w: World, a: Action)
    requires AllSpeak(w)
    ensures AllSpeak(Next(w, a))
  {
    if a.Publish? {
      PublishSpeaks(w, a.wk);
    } else if a.ResendNext? {
      ResendSpeaks(w, a.wk, a.delivered);
    } else if a.StartSaga? || a.HandleEvent? || a.Crash? || a.ListSagas? {
      OrderServiceSpeaks(w, a);
    } else if a.BeginPayment? || a.LookupPayment? || a.InsertPayment? {
      PaymentSpeaks(w, a);
    } else if a.BeginRelease? || a.CommitRelease? {
      ReleaseSpeaks(w, a);
    } else if a.Worker().Some? {
      ReserveSpeaks(w, a);
    }
  }

  // ---------------------------------------------------------------- the text in the saga row

  /** The column holds the first 500 bytes of what was to be said. */
  predicate Says(column: string, text: string) {
    column == if |text| <= 500 then text else text[..500]
  }

  /** m reported that saga s could not give its stock back. */
  predicate ReportsFailedRelease(m: Message, s: Uuid) {
    m.body.InventoryReleasedEvent? && m.body.sagaId == s && !m.body.success
  }

  /** The failed release that moved the saga last, and what it said. */
  ghost predicate ReleaseFailureTold(g: SagaState, s: Uuid, net: set<Message>) {
    exists m :: m in net && ReportsFailedRelease(m, s) && g.lastEventId == Some(m.id)
                && Says(g.lastError, "compensation failed: " + m.body.reason)
  }

  /** Nothing while nothing failed; then why the reservation or the payment failed, also after the stock is back;
      and if that could not be given back, the report that said so. */
  ghost predicate ErrorTold(g: SagaState, s: Uuid, moves: nat, net: set<Message>) {
    true == match g.status
            case InProgress => g.lastError == ""
            case Completed => g.lastError == ""
            case Compensating => g.lastError == "SIMULATED_FAILURE"
            case SagaCompensated => g.lastError == "SIMULATED_FAILURE"
            case SagaFailed =>
              if moves == 1 then g.lastError == "INSUFFICIENT_STOCK" else ReleaseFailureTold(g, s, net)
  }

  ghost predicate ErrorsTold(w: World) {
    true == (forall s :: s in w.db.sagas ==> ErrorTold(w.db.sagas[s], s, Moves(w, s), w.net))
  }

  lemma MovedRowTells(g: SagaState, s: Uuid, status: OrderStatus, moves: nat, m: Message, net: set<Message>)
    requires ErrorTold(g, s, moves, net) && RowOk(g, status, moves)
    requires m in net && m.body.IsEvent() && m.body.sagaId == s && Speaks(m.body) && Awaits(g, m.body)
    ensures ErrorTold(NextRow(g, m), s, moves + 1, net)
  {
    if m.body.InventoryReleasedEvent? && !m.body.success {
      assert Says(NextRow(g, m).lastError, "compensation failed: " + m.body.reason);
      assert ReportsFailedRelease(m, s);
    }
  }

  lemma StillTold(g: SagaState, s: Uuid, moves: nat, net: set<Message>, net': set<Message>)
    requires ErrorTold(g, s, moves, net) && net <= net'
    ensures ErrorTold(g, s, moves, net')
  {
  }

  lemma MovingTells(w: World, a: Action)
    requires Consistent(w) && AllSpeak(w) && ErrorsTold(w) && Moving(w, a)
    ensures ErrorsTold(Next(w, a))
  {
    MoveOfAction(w, a);
    assert Backed(w, a.m.body);
    ReactMeaning(w, a.m);
    var s := a.m.body.sagaId;
    var g := w.db.sagas[s];
    MovedRowTells(g, s, w.db.orders[g.orderId].status, Moves(w, s), a.m, w.net);
  }

  lemma OthersTell(w: World, a: Action)
    requires Consistent(w) && ErrorsTold(w) && !Moving(w, a)
    ensures ErrorsTold(Next(w, a))
  {
    NetOfAction(w, a);
    var w' := Next(w, a);
    if !a.StartSaga? && !a.CreateOrder? {
      OrderDbUntouched(w, a);
    }
    forall s | s in w'.db.sagas ensures ErrorTold(w'.db.sagas[s], s, Moves(w', s), w'.net) {
      if s in w.db.sagas {
        StillTold(w.db.sagas[s], s, Moves(w, s), w.net, w'.net);
      }
    }
  }

  lemma {:induction false} RunTells(w: World, actions: seq<Action>)
    requires Consistent(w) && AllSpeak(w) && ErrorsTold(w)
    ensures AllSpeak(Exec(w, actions)) && ErrorsTold(Exec(w, actions))
    decreases |actions|
  {
    if actions != [] {
      var before := actions[..|actions| - 1];
      RunTells(w, before);
      RunConsistent(w, before);
      SpeakingKept(Exec(w, before), actions[|actions| - 1]);
      if Moving(Exec(w, before), actions[|actions| - 1]) {
        MovingTells(Exec(w, before), actions[|actions| - 1]);
      } else {
        OthersTell(Exec(w, before), actions[|actions| - 1]);
      }
    }
  }

  /** In every reachable world each reply speaks as it should and each saga's last_error tells what went wrong. */
  lemma {:induction false} LastErrorTells(maxRetries: nat, actions: seq<Action>)
    ensures var w := Exec(Init(maxRetries), actions);
            && (forall m | m in w.net :: Speaks(m.body))
            && (forall s | s in w.db.sagas :: ErrorTold(w.db.sagas[s], s, Moves(w, s), w.net))
  {
    EveryRun(maxRetries, []);
    RunTells(Init(maxRetries), actions);
  }
}
