/** How often a command is taken decides whether its failure reply can be trusted: taken at most once, a
    refused reservation holds no stock and a failed release has returned none; from two on, both happen. */
module Deliveries {
  import opened SagaTypes
  import opened InventoryDatabase
  import opened Protocol
  import opened OrderTransaction
  import opened Invariant
  import opened Preservation
  import opened Accounting
  import opened StockSafety
  import opened Openings
  import opened Allocation
  import opened Completion
  import opened Limits
  import opened Witnesses

  // ---------------------------------------------------------------- one kind of command for one order

  /** An idle worker takes a reserve, or release, command of order o from the network. */
  predicate Takes(w: World, a: Action, o: OrderId, act: LogAction) {
    match act
    case Reserve => a.BeginReserve? && Idle(w, a.wk) && a.m in w.net && a.m.body.ReserveInventoryCmd? && a.m.body.orderId == o
    case Release => a.BeginRelease? && Idle(w, a.wk) && a.m in w.net && a.m.body.ReleaseInventoryCmd? && a.m.body.orderId == o
  }

  /** How often commands of one kind for order o are taken in a run from w. */
  function Deliveries(w: World, actions: seq<Action>, o: OrderId, act: LogAction): nat {
    if actions == [] then 0
    else
      var before := actions[..|actions| - 1];
      Deliveries(w, before, o, act) + (if Takes(Exec(w, before), actions[|actions| - 1], o, act) then 1 else 0)
  }

  /** A worker that may still write the log. */
  predicate Attempts(t: Task, o: OrderId, act: LogAction) {
    match act
    case Reserve => (t.ReserveLoop? || t.ReserveCas?) && t.cmd.orderId == o
    case Release => t.ReleaseTxn? && t.cmd.orderId == o
  }

  predicate Replies(b: Payload, o: OrderId, act: LogAction) {
    match act
    case Reserve => b.InventoryReservedEvent? && b.orderId == o
    case Release => b.InventoryReleasedEvent? && b.orderId == o
  }

  predicate Fails(b: Payload, o: OrderId, act: LogAction) {
    Replies(b, o, act) && !b.success
  }

  /** The saga ended on a failure reply of this kind. */
  predicate EndedOn(w: World, o: OrderId, act: LogAction) {
    match act
    case Reserve => RejectedSaga(w, o)
    case Release => ReleaseReportedFailed(w, o)
  }

  predicate AttemptsAt(w: World, wk: WorkerId, o: OrderId, act: LogAction) {
    wk in w.tasks && Attempts(w.tasks[wk], o, act)
  }

  ghost predicate NoAttempt(w: World, o: OrderId, act: LogAction) {
    forall wk :: !AttemptsAt(w, wk, o, act)
  }

  ghost predicate NoReply(w: World, o: OrderId, act: LogAction) {
    true == (
      && (forall m :: m in w.net ==> !Replies(m.body, o, act))
      && (forall wk :: wk in w.tasks && w.tasks[wk].Pub? ==> !Replies(w.tasks[wk].body, o, act)))
  }

  ghost predicate NoFailure(w: World, o: OrderId, act: LogAction) {
    true == (
      && (forall m :: m in w.net ==> !Fails(m.body, o, act))
      && (forall wk :: wk in w.tasks && w.tasks[wk].Pub? ==> !Fails(w.tasks[wk].body, o, act)))
  }

  /** Nothing of this kind has happened yet. */
  ghost predicate Untouched(w: World, o: OrderId, act: LogAction) {
    NoReply(w, o, act) && !HasLog(w.inv.logs, o, act) && !EndedOn(w, o, act)
  }

  /** The only worker on it, if any, has the order untouched before it; and once the log is written no
      failure is reported. */
  ghost predicate TakenOnce(w: World, o: OrderId, act: LogAction) {
    true == (
      && (forall x, y :: AttemptsAt(w, x, o, act) && AttemptsAt(w, y, o, act) ==> x == y)
      && (NoAttempt(w, o, act) || Untouched(w, o, act))
      && (HasLog(w.inv.logs, o, act) ==> NoFailure(w, o, act) && !EndedOn(w, o, act)))
  }

  // ---------------------------------------------------------------- what one step can add

  /** What a step other than taking such a command does to the worker that makes it. */
  ghost predicate OwnEffect(w: World, w': World, a: Action, o: OrderId, act: LogAction)
    requires a.Worker().Some?
  {
    true == (
      && (AttemptsAt(w', a.wk, o, act) ==> AttemptsAt(w, a.wk, o, act))
      && (a.wk in w'.tasks && w'.tasks[a.wk].Pub? && Replies(w'.tasks[a.wk].body, o, act) ==>
            (a.wk in w.tasks && w.tasks[a.wk] == w'.tasks[a.wk])
            || (AttemptsAt(w, a.wk, o, act) && (w'.tasks[a.wk].body.success <==> w'.inv != w.inv)))
      && (HasLog(w'.inv.logs, o, act) && !HasLog(w.inv.logs, o, act) ==>
            AttemptsAt(w, a.wk, o, act) && a.wk in w'.tasks && w'.tasks[a.wk].Pub? && w'.inv != w.inv
            && Replies(w'.tasks[a.wk].body, o, act) && w'.tasks[a.wk].body.success)
      && (HasLog(w.inv.logs, o, act) ==> HasLog(w'.inv.logs, o, act)))
  }

  lemma OrderServiceEffect(w: World, a: Action, o: OrderId, act: LogAction)
    requires OfOrderService(a)
    ensures OwnEffect(w, Next(w, a), a, o, act)
  {
    InventoryUntouched(w, a);
    if Moving(w, a) {
      EventFields(w, a, React(w.db, a.m));
    }
  }

  lemma PaymentEffect(w: World, a: Action, o: OrderId, act: LogAction)
    requires OfPaymentService(a)
    ensures OwnEffect(w, Next(w, a), a, o, act)
  {
    InventoryUntouched(w, a);
  }

  lemma BeginEffect(w: World, a: Action, o: OrderId, act: LogAction)
    requires (a.BeginReserve? || a.BeginRelease?) && !Takes(w, a, o, act)
    ensures OwnEffect(w, Next(w, a), a, o, act)
  {
    InventoryUntouched(w, a);
  }

  lemma ReadEffect(w: World, a: Action, o: OrderId, act: LogAction)
    requires a.ReadStock?
    ensures OwnEffect(w, Next(w, a), a, o, act)
  {
    InventoryUntouched(w, a);
  }

  lemma CasEffect(w: World, a: Action, o: OrderId, act: LogAction)
    requires a.CasReserve?
    ensures OwnEffect(w, Next(w, a), a, o, act)
  {
    if a.wk in w.tasks && w.tasks[a.wk].ReserveCas? && w.tasks[a.wk].cmd.ReserveInventoryCmd? {
      var cmd := w.tasks[a.wk].cmd;
      HasLogAppend(w.inv.logs, InventoryLog(cmd.productId, cmd.orderId, Reserve, cmd.quantity), o, act);
    }
  }

  lemma CommitEffect(w: World, a: Action, o: OrderId, act: LogAction)
    requires a.CommitRelease?
    ensures OwnEffect(w, Next(w, a), a, o, act)
  {
    if a.wk in w.tasks && w.tasks[a.wk].ReleaseTxn? && w.tasks[a.wk].cmd.ReleaseInventoryCmd? {
      var cmd := w.tasks[a.wk].cmd;
      HasLogAppend(w.inv.logs, InventoryLog(cmd.productId, cmd.orderId, Release, cmd.quantity), o, act);
    }
  }

  lemma StepEffect(w: World, a: Action, o: OrderId, act: LogAction)
    requires a.Worker().Some? && !Takes(w, a, o, act)
    ensures OwnEffect(w, Next(w, a), a, o, act)
  {
    if OfOrderService(a) {
      OrderServiceEffect(w, a, o, act);
    } else if OfPaymentService(a) {
      PaymentEffect(w, a, o, act);
    } else if a.BeginReserve? || a.BeginRelease? {
      BeginEffect(w, a, o, act);
    } else if a.ReadStock? {
      ReadEffect(w, a, o, act);
    } else if a.CasReserve? {
      CasEffect(w, a, o, act);
    } else {
      CommitEffect(w, a, o, act);
    }
  }

  /** A saga ends on a failure reply only when one is delivered. */
  lemma EndsByFailure(w: World, a: Action, o: OrderId, act: LogAction)
    requires Consistent(w) && EndedOn(Next(w, a), o, act) && !EndedOn(w, o, act)
    ensures Moving(w, a) && a.m in w.net && Fails(a.m.body, o, act)
  {
    if Moving(w, a) {
      MovedAbs(w, a);
      assert Abs(Next(w, a), o).phase == OrderPhase(Next(w, a), o) && Abs(w, o).phase == OrderPhase(w, o);
      EventKind(w, a);
    } else {
      PhaseKept(w, a, o);
    }
  }

  lemma EventKind(w: World, a: Action)
    requires Moving(w, a)
    ensures a.m.body.IsEvent()
  {
  }

  lemma PhaseKept(w: World, a: Action, o: OrderId)
    requires Consistent(w) && !Moving(w, a)
    ensures OrderPhase(Next(w, a), o) == OrderPhase(w, o) || OrderPhase(Next(w, a), o).Reserving?
  {
    StepConsistent(w, a);
    HistoryOfAction(w, a);
    PhaseKeptBetween(w, Next(w, a), o);
  }

  lemma PhaseKeptBetween(w: World, w': World, o: OrderId)
    requires Inv(w) && NoMove(w, w') && Evolves(w, w')
    ensures OrderPhase(w', o) == OrderPhase(w, o) || OrderPhase(w', o).Reserving?
  {
    if o in w.db.byOrder {
      RowKeptPhase(w, w', o);
    } else {
      assert TxnStutterOrStep(Abs(w, o), Abs(w', o));
    }
  }

  lemma RowKeptPhase(w: World, w': World, o: OrderId)
    requires Indexed(w.db) && SagasOk(w) && o in w.db.byOrder && NoMove(w, w') && Evolves(w, w')
    ensures OrderPhase(w', o) == OrderPhase(w, o)
  {
    assert w.db.byOrder[o] in w.db.sagas && w.db.byOrder[o] in w.hist;
  }

  // ---------------------------------------------------------------- a command taken at most once

  /** What else is known of any step: the other workers keep their tasks, and an event enters the network
      only out of the hands of a worker. */
  ghost predicate Elsewhere(w: World, w': World, a: Action) {
    true == (
      && (forall wk :: wk in w'.tasks && a.Worker() != Some(wk) ==> wk in w.tasks && w.tasks[wk] == w'.tasks[wk])
      && (forall m :: m in w'.net && m !in w.net && m.body.IsEvent() ==>
            a.Worker().Some? && a.wk in w.tasks && w.tasks[a.wk] == Pub(m.body))
      && (a.Worker().None? ==> w'.inv.logs == w.inv.logs))
  }

  lemma EnvironmentLogs(w: World, a: Action)
    ensures a.Worker().None? ==> Next(w, a).inv.logs == w.inv.logs
  {
  }

  lemma EventSent(w: World, a: Action)
    ensures Sent(w, a).Some? && Sent(w, a).value.IsEvent() ==>
              a.Worker().Some? && a.wk in w.tasks && w.tasks[a.wk] == Pub(Sent(w, a).value)
  {
  }

  lemma StepElsewhere(w: World, a: Action)
    ensures Elsewhere(w, Next(w, a), a)
  {
    EnvironmentLogs(w, a);
    EventSent(w, a);
    NetOfAction(w, a);
    forall wk: WorkerId | a.Worker() != Some(wk) { OtherTasksKept(w, a, wk); }
  }

  /** With nobody at work on a command of this kind, nothing more is logged or answered. */
  lemma IdleKept(w: World, w': World, a: Action, o: OrderId, act: LogAction)
    requires Elsewhere(w, w', a) && (a.Worker().Some? ==> OwnEffect(w, w', a, o, act))
    requires NoAttempt(w, o, act)
    ensures NoAttempt(w', o, act)
    ensures HasLog(w'.inv.logs, o, act) <==> HasLog(w.inv.logs, o, act)
  {
    forall wk ensures !AttemptsAt(w', wk, o, act) {
      assert !AttemptsAt(w, wk, o, act);
    }
  }

  lemma IdleReplies(w: World, w': World, a: Action, o: OrderId, act: LogAction)
    requires Elsewhere(w, w', a) && (a.Worker().Some? ==> OwnEffect(w, w', a, o, act))
    requires NoAttempt(w, o, act)
    ensures NoReply(w, o, act) ==> NoReply(w', o, act)
    ensures NoFailure(w, o, act) ==> NoFailure(w', o, act)
  {
    forall m | m in w'.net && m !in w.net && Replies(m.body, o, act)
      ensures a.Worker().Some? && a.wk in w.tasks && w.tasks[a.wk] == Pub(m.body)
    {
    }
    forall wk | wk in w'.tasks && w'.tasks[wk].Pub? && Replies(w'.tasks[wk].body, o, act)
      ensures wk in w.tasks && w.tasks[wk] == w'.tasks[wk]
    {
      assert a.Worker() == Some(wk) ==> !AttemptsAt(w, wk, o, act);
    }
  }

  /** Before anything is logged or answered, only the one worker at work can change that. */
  lemma UntouchedKept(w: World, w': World, a: Action, o: OrderId, act: LogAction)
    requires Elsewhere(w, w', a) && (a.Worker().Some? ==> OwnEffect(w, w', a, o, act))
    requires TakenOnce(w, o, act) && Untouched(w, o, act) && !EndedOn(w', o, act)
    ensures TakenOnce(w', o, act)
  {
    if a.Worker().Some? && AttemptsAt(w, a.wk, o, act) {
      OnlyOneWorks(w, w', a, o, act);
    } else {
      OthersWork(w, w', a, o, act);
    }
  }

  /** The step is one of the worker at work: it goes on, or it stops and has answered what it did. */
  lemma OnlyOneWorks(w: World, w': World, a: Action, o: OrderId, act: LogAction)
    requires Elsewhere(w, w', a) && a.Worker().Some? && OwnEffect(w, w', a, o, act) && AttemptsAt(w, a.wk, o, act)
    requires TakenOnce(w, o, act) && Untouched(w, o, act) && !EndedOn(w', o, act)
    ensures TakenOnce(w', o, act)
  {
    forall x | AttemptsAt(w', x, o, act) ensures x == a.wk {
      assert AttemptsAt(w, x, o, act);
    }
    forall m | m in w'.net ensures !Replies(m.body, o, act) {
      assert m !in w.net && m.body.IsEvent() ==> w.tasks[a.wk] == Pub(m.body);
    }
    if AttemptsAt(w', a.wk, o, act) {
      assert !w'.tasks[a.wk].Pub?;
      forall wk | wk in w'.tasks && w'.tasks[wk].Pub? ensures !Replies(w'.tasks[wk].body, o, act) {
        assert wk != a.wk && w.tasks[wk] == w'.tasks[wk];
      }
      assert !HasLog(w'.inv.logs, o, act);
      assert NoReply(w', o, act);
      assert Untouched(w', o, act);
    } else {
      assert NoAttempt(w', o, act);
    }
  }

  lemma OthersWork(w: World, w': World, a: Action, o: OrderId, act: LogAction)
    requires Elsewhere(w, w', a) && (a.Worker().Some? ==> OwnEffect(w, w', a, o, act) && !AttemptsAt(w, a.wk, o, act))
    requires TakenOnce(w, o, act) && Untouched(w, o, act) && !EndedOn(w', o, act)
    ensures TakenOnce(w', o, act)
  {
    forall x | AttemptsAt(w', x, o, act) ensures AttemptsAt(w, x, o, act) {
    }
    assert NoReply(w', o, act) by {
      forall m | m in w'.net && m !in w.net && Replies(m.body, o, act)
        ensures a.Worker().Some? && a.wk in w.tasks && w.tasks[a.wk] == Pub(m.body)
      {
      }
    }
  }

  lemma StepShape(w: World, a: Action, o: OrderId, act: LogAction)
    requires !Takes(w, a, o, act)
    ensures Elsewhere(w, Next(w, a), a) && (a.Worker().Some? ==> OwnEffect(w, Next(w, a), a, o, act))
  {
    StepElsewhere(w, a);
    if a.Worker().Some? {
      StepEffect(w, a, o, act);
    }
  }

  /** Nobody has taken such a command: nothing of the kind happens. */
  lemma NoneTakenKept(w: World, a: Action, o: OrderId, act: LogAction)
    requires Consistent(w) && !Takes(w, a, o, act) && NoAttempt(w, o, act) && Untouched(w, o, act)
    ensures NoAttempt(Next(w, a), o, act) && Untouched(Next(w, a), o, act)
  {
    StepShape(w, a, o, act);
    IdleKept(w, Next(w, a), a, o, act);
    IdleReplies(w, Next(w, a), a, o, act);
    if EndedOn(Next(w, a), o, act) {
      EndsByFailure(w, a, o, act);
    }
  }

  lemma TakenOnceKept(w: World, a: Action, o: OrderId, act: LogAction)
    requires Consistent(w) && !Takes(w, a, o, act) && TakenOnce(w, o, act)
    ensures TakenOnce(Next(w, a), o, act)
  {
    StepShape(w, a, o, act);
    if EndedOn(Next(w, a), o, act) && !EndedOn(w, o, act) {
      EndsByFailure(w, a, o, act);
      assert a.m in w.net && Fails(a.m.body, o, act);
    }
    if Untouched(w, o, act) {
      UntouchedKept(w, Next(w, a), a, o, act);
    } else {
      SettledKept(w, Next(w, a), a, o, act);
    }
  }

  /** The one delivery is over: what it logged and answered stands. */
  lemma SettledKept(w: World, w': World, a: Action, o: OrderId, act: LogAction)
    requires Elsewhere(w, w', a) && (a.Worker().Some? ==> OwnEffect(w, w', a, o, act))
    requires TakenOnce(w, o, act) && NoAttempt(w, o, act)
    requires HasLog(w.inv.logs, o, act) && EndedOn(w', o, act) ==> EndedOn(w, o, act)
    ensures TakenOnce(w', o, act)
  {
    IdleKept(w, w', a, o, act);
    IdleReplies(w, w', a, o, act);
  }

  /** The first delivery. */
  lemma FirstTaken(w: World, a: Action, o: OrderId, act: LogAction)
    requires Consistent(w) && Takes(w, a, o, act) && NoAttempt(w, o, act) && Untouched(w, o, act)
    ensures TakenOnce(Next(w, a), o, act)
  {
    InventoryUntouched(w, a);
    TakenTask(w, a, o, act);
    StepElsewhere(w, a);
    if EndedOn(Next(w, a), o, act) {
      EndsByFailure(w, a, o, act);
    }
    TakenAlone(w, Next(w, a), a, o, act);
  }

  lemma TakenAlone(w: World, w': World, a: Action, o: OrderId, act: LogAction)
    requires Elsewhere(w, w', a) && a.Worker().Some? && a.wk in w'.tasks && w'.net == w.net && w'.inv == w.inv
    requires NoAttempt(w, o, act) && Untouched(w, o, act) && !EndedOn(w', o, act)
    requires AttemptsAt(w', a.wk, o, act) || w'.tasks[a.wk].Pub?
    ensures TakenOnce(w', o, act)
  {
    forall x | AttemptsAt(w', x, o, act) ensures x == a.wk {
      assert !AttemptsAt(w, x, o, act);
    }
  }

  lemma TakenTask(w: World, a: Action, o: OrderId, act: LogAction)
    requires Takes(w, a, o, act) && !HasLog(w.inv.logs, o, act)
    ensures a.wk in Next(w, a).tasks
    ensures AttemptsAt(Next(w, a), a.wk, o, act)
            || (act == Reserve && w.maxRetries == 0 && Next(w, a).tasks[a.wk].Pub?)
    ensures Next(w, a).net == w.net
  {
  }

  lemma {:induction false} RunTaken(budget: nat, actions: seq<Action>, o: OrderId, act: LogAction)
    requires Deliveries(Init(budget), actions, o, act) <= 1
    ensures TakenOnce(Exec(Init(budget), actions), o, act)
    ensures Deliveries(Init(budget), actions, o, act) == 0 ==>
              NoAttempt(Exec(Init(budget), actions), o, act) && Untouched(Exec(Init(budget), actions), o, act)
    decreases |actions|
  {
    if actions != [] {
      var before, last := actions[..|actions| - 1], actions[|actions| - 1];
      var w := Exec(Init(budget), before);
      RunTaken(budget, before, o, act);
      EveryRun(budget, before);
      if Takes(w, last, o, act) {
        FirstTaken(w, last, o, act);
      } else {
        TakenOnceKept(w, last, o, act);
        if Deliveries(Init(budget), before, o, act) == 0 {
          NoneTakenKept(w, last, o, act);
        }
      }
    }
  }

  /** Reserve commands of an order taken at most once: if the order is rejected, it holds no stock. */
  lemma {:induction false} OneReserveIsHonest(budget: nat, actions: seq<Action>, o: OrderId)
    requires Deliveries(Init(budget), actions, o, Reserve) <= 1
    ensures RejectedSaga(Exec(Init(budget), actions), o) ==> !HoldsStock(Exec(Init(budget), actions), o)
  {
    RunTaken(budget, actions, o, Reserve);
  }

  /** Release commands of an order taken at most once: if the release is reported as failed, none happened. */
  lemma {:induction false} OneReleaseIsHonest(budget: nat, actions: seq<Action>, o: OrderId)
    requires Deliveries(Init(budget), actions, o, Release) <= 1
    ensures ReleaseReportedFailed(Exec(Init(budget), actions), o) ==> Abs(Exec(Init(budget), actions), o).stock.Held?
  {
    RunTaken(budget, actions, o, Release);
    EveryRun(budget, actions);
    assert TxnOk(Abs(Exec(Init(budget), actions), o));
  }

  // ---------------------------------------------------------------- counting deliveries

  lemma {:induction false} DeliveriesConcat(w: World, before: seq<Action>, after: seq<Action>, o: OrderId, act: LogAction)
    ensures Deliveries(w, before + after, o, act)
         == Deliveries(w, before, o, act) + Deliveries(Exec(w, before), after, o, act)
    decreases |after|
  {
    if after == [] {
      assert before + after == before;
    } else {
      var rest := after[..|after| - 1];
      DeliveriesConcat(w, before, rest, o, act);
      ExecConcat(w, before, rest);
      assert (before + after)[..|before + after| - 1] == before + rest;
    }
  }

  predicate Begins(a: Action, act: LogAction) {
    match act
    case Reserve => a.BeginReserve?
    case Release => a.BeginRelease?
  }

  lemma {:induction false} NoDelivery(w: World, actions: seq<Action>, o: OrderId, act: LogAction)
    requires forall i | 0 <= i < |actions| :: !Begins(actions[i], act)
    ensures Deliveries(w, actions, o, act) == 0
    decreases |actions|
  {
    if actions != [] {
      NoDelivery(w, actions[..|actions| - 1], o, act);
      assert !Begins(actions[|actions| - 1], act);
    }
  }

  lemma OneDelivery(w: World, a: Action, o: OrderId, act: LogAction)
    requires Takes(w, a, o, act)
    ensures Deliveries(w, [a], o, act) == 1
  {
    assert [a][..0] == [];
    assert Exec(w, []) == w;
  }

  function Taking(wk: WorkerId, c: Message, act: LogAction): Action {
    match act
    case Reserve => BeginReserve(wk, c)
    case Release => BeginRelease(wk, c)
  }

  /** Two idle workers take one command, one after the other; what follows takes none. */
  lemma TwoDeliveries(w: World, c: Message, x: WorkerId, y: WorkerId, rest: seq<Action>, o: OrderId, act: LogAction)
    requires Takes(w, Taking(x, c, act), o, act) && Takes(w, Taking(y, c, act), o, act) && x != y
    requires forall i | 0 <= i < |rest| :: !Begins(rest[i], act)
    ensures Deliveries(w, [Taking(x, c, act), Taking(y, c, act)] + rest, o, act) == 2
  {
    var a, b := Taking(x, c, act), Taking(y, c, act);
    OtherTasksKept(w, a, y);
    NetOfAction(w, a);
    OneDelivery(w, a, o, act);
    OneDelivery(Next(w, a), b, o, act);
    ExecOne(w, a);
    DeliveriesConcat(w, [a], [b], o, act);
    NoDelivery(Exec(w, [a, b]), rest, o, act);
    DeliveriesConcat(w, [a] + [b], rest, o, act);
    assert [a] + [b] == [a, b];
  }

  /** A command on the network can be taken as often as one likes. */
  lemma {:induction false} Again(w: World, c: Message, o: OrderId, act: LogAction, k: nat) returns (more: seq<Action>)
    requires c in w.net && c.body.orderId == o
    requires match act case Reserve => c.body.ReserveInventoryCmd? case Release => c.body.ReleaseInventoryCmd?
    ensures Deliveries(w, more, o, act) == k && c in Exec(w, more).net
    decreases k
  {
    more := [];
    if k > 0 {
      var before := Again(w, c, o, act, k - 1);
      var w1 := Exec(w, before);
      var wk := Above(w1.tasks.Keys);
      var a := Taking(wk, c, act);
      more := before + [a];
      assert more[..|more| - 1] == before;
      NetOfAction(w1, a);
    }
  }

  // ---------------------------------------------------------------- the exact conditions

  ghost predicate Leaks(budget: nat, actions: seq<Action>, o: OrderId, n: nat) {
    && Deliveries(Init(budget), actions, o, Reserve) == n
    && RejectedSaga(Exec(Init(budget), actions), o) && HoldsStock(Exec(Init(budget), actions), o)
  }

  ghost predicate Misreports(budget: nat, actions: seq<Action>, o: OrderId, n: nat) {
    && Deliveries(Init(budget), actions, o, Release) == n
    && ReleaseReportedFailed(Exec(Init(budget), actions), o)
    && Abs(Exec(Init(budget), actions), o).stock.Returned?
  }

  /** Without a retry budget nothing is ever reserved. */
  lemma {:induction false} NeverReserved(actions: seq<Action>, o: OrderId)
    ensures NoAttempt(Exec(Init(0), actions), o, Reserve) && Exec(Init(0), actions).maxRetries == 0
    ensures !HasLog(Exec(Init(0), actions).inv.logs, o, Reserve)
    decreases |actions|
  {
    if actions != [] {
      var w, last := Exec(Init(0), actions[..|actions| - 1]), actions[|actions| - 1];
      NeverReserved(actions[..|actions| - 1], o);
      BudgetFixed(w, last);
      if Takes(w, last, o, Reserve) {
        InventoryUntouched(w, last);
        RefusedAtOnce(w, last.wk, last.m);
        StepElsewhere(w, last);
        forall x ensures !AttemptsAt(Next(w, last), x, o, Reserve) {
          assert !AttemptsAt(w, x, o, Reserve);
        }
      } else {
        StepShape(w, last, o, Reserve);
        IdleKept(w, Next(w, last), last, o, Reserve);
      }
    }
  }

  lemma RefusedAtOnce(w: World, wk: WorkerId, m: Message)
    requires w.maxRetries == 0 && Idle(w, wk) && m in w.net && m.body.ReserveInventoryCmd?
    ensures wk in DoBeginReserve(w, wk, m).tasks && DoBeginReserve(w, wk, m).tasks[wk].Pub?
  {
  }

  lemma LeakExists(budget: nat, o: OrderId, n: nat) returns (actions: seq<Action>)
    requires budget >= 1 && n >= 2
    ensures Leaks(budget, actions, o, n)
  {
    var sale := Sale(7, 1, 1);
    var e := LeakFromInit(budget, o, sale);
    var leak := LeakRun(o, sale, e);
    LeakCount(budget, o, sale, e);
    var more := Again(Exec(Init(budget), leak), FirstCommand(o, sale), o, Reserve, n - 2);
    actions := leak + more;
    DeliveriesConcat(Init(budget), leak, more, o, Reserve);
    ExecConcat(Init(budget), leak, more);
    LeakIsPermanent(Exec(Init(budget), leak), more, o);
  }

  lemma LeakCount(budget: nat, o: OrderId, sale: Sale, e: Message)
    requires sale.q >= 1
    ensures Deliveries(Init(budget), LeakRun(o, sale, e), o, Reserve) == 2
    ensures FirstCommand(o, sale) in Exec(Init(budget), LeakRun(o, sale, e)).net
  {
    var c, w := FirstCommand(o, sale), Exec(Init(budget), OneOrder(o, sale));
    var rest := [ReadStock(1), CasReserve(1), ReadStock(0), Publish(0), HandleEvent(0, e, true)];
    OneOrderRun(budget, o, sale);
    NoDelivery(Init(budget), OneOrder(o, sale), o, Reserve);
    TwoDeliveries(w, c, 0, 1, rest, o, Reserve);
    var tail := TwinRun(c, 0, 1) + [Publish(0), HandleEvent(0, e, true)];
    assert tail == [BeginReserve(0, c), BeginReserve(1, c)] + rest;
    DeliveriesConcat(Init(budget), OneOrder(o, sale), tail, o, Reserve);
    ExecConcat(Init(budget), OneOrder(o, sale), tail);
    NetGrowsOn(w, tail);
  }

  lemma {:induction false} NetGrowsOn(w: World, actions: seq<Action>)
    ensures w.net <= Exec(w, actions).net
    decreases |actions|
  {
    if actions != [] {
      NetGrowsOn(w, actions[..|actions| - 1]);
      NetOfAction(Exec(w, actions[..|actions| - 1]), actions[|actions| - 1]);
    }
  }

  /** A rejected order can hold stock after n deliveries of its reserve command if and only if n is at
      least two, whatever the positive retry budget. */
  lemma {:induction false} LeakIff(budget: nat, o: OrderId, n: nat)
    ensures (exists actions :: Leaks(budget, actions, o, n)) <==> budget >= 1 && n >= 2
  {
    if budget >= 1 && n >= 2 {
      var actions := LeakExists(budget, o, n);
    } else {
      forall actions ensures !Leaks(budget, actions, o, n) {
        if budget == 0 {
          NeverReserved(actions, o);
        } else if Deliveries(Init(budget), actions, o, Reserve) == n {
          OneReserveIsHonest(budget, actions, o);
        }
      }
    }
  }

  lemma MisreportExists(budget: nat, o: OrderId, n: nat) returns (actions: seq<Action>)
    requires budget >= 1 && n >= 2
    ensures Misreports(budget, actions, o, n)
  {
    var sale := Sale(7, 1, 1);
    var c, e := RaceFromInit(budget, o, sale, "duplicate entry");
    var race := RaceFailure(budget, o, sale, c, "duplicate entry", e);
    RaceCount(budget, o, sale, c, "duplicate entry", e);
    var more := Again(Exec(Init(budget), race), c, o, Release, n - 2);
    actions := race + more;
    DeliveriesConcat(Init(budget), race, more, o, Release);
    ExecConcat(Init(budget), race, more);
    ReturnIsPermanent(Exec(Init(budget), race), more, o);
  }

  lemma RaceCount(budget: nat, o: OrderId, sale: Sale, c: Message, text: string, e: Message)
    requires ReleasersMeet(Exec(Init(budget), RaceOpening(budget, o, sale)), c, 0, 1) && c.body.orderId == o
    ensures Deliveries(Init(budget), RaceFailure(budget, o, sale, c, text, e), o, Release) == 2
    ensures c in Exec(Init(budget), RaceFailure(budget, o, sale, c, text, e)).net
  {
    var opening := RaceOpening(budget, o, sale);
    var w := Exec(Init(budget), opening);
    var rest := [CommitRelease(1, false, text), CommitRelease(0, false, text), Publish(0), HandleEvent(0, e, true)];
    NoDelivery(Init(budget), opening, o, Release);
    TwoDeliveries(w, c, 0, 1, rest, o, Release);
    var tail := RaceRun(c, 0, 1, text) + [Publish(0), HandleEvent(0, e, true)];
    assert tail == [BeginRelease(0, c), BeginRelease(1, c)] + rest;
    DeliveriesConcat(Init(budget), opening, tail, o, Release);
    ExecConcat(Init(budget), opening, tail);
    NetGrowsOn(w, tail);
  }

  /** A release can be reported as failed although the stock is back, after n deliveries of its command, if
      and only if n is at least two. */
  lemma {:induction false} MisreportIff(budget: nat, o: OrderId, n: nat)
    ensures (exists actions :: Misreports(budget, actions, o, n)) <==> budget >= 1 && n >= 2
  {
    if budget >= 1 && n >= 2 {
      var actions := MisreportExists(budget, o, n);
    } else {
      forall actions ensures !Misreports(budget, actions, o, n) {
        if budget == 0 {
          NeverReserved(actions, o);
          EveryRun(budget, actions);
        } else if Deliveries(Init(budget), actions, o, Release) == n {
          OneReleaseIsHonest(budget, actions, o);
        }
      }
    }
  }
}
