/** The orchestrator of the order service: starting a saga, handling an event, the recovery tick. */
module Orchestrator {
  import opened SagaTypes
  import opened OrderDatabase
  import opened Protocol
  import opened Preservation
  import opened Safety
  import opened Network
  import opened Cluster

  /** What the handling of an event came to, before anything is published. */
  datatype EventResult = Failed | Skipped | Ended | Send(command: Payload)

  function AfterReaction(r: Reaction, rolledBack: bool): EventResult {
    match r
    case Ignored => if rolledBack then Failed else Skipped
    case Moved(_, None, _) => Ended
    case Moved(_, Some(c), _) => EventResult.Send(c)
  }

  predicate RollsBack(db: OrderDb, m: Message) {
    (m.body.InventoryReservedEvent? && CommitReserved(db, m.id, m.body).Rollback?)
    || (m.body.PaymentProcessedEvent? && CommitPayment(db, m.id, m.body).Rollback?)
    || (m.body.InventoryReleasedEvent? && CommitReleased(db, m.id, m.body).Rollback?)
  }

  /** The transaction looks at the order: to charge it, or to give its goods back. */
  predicate NeedsOrder(g: SagaState, b: Payload) {
    || (b.InventoryReservedEvent? && b.success && g.step == ReservingInventory)
    || (b.PaymentProcessedEvent? && !b.success && g.step == ProcessingPayment)
  }

  /** A new event finds no saga, or its saga no order. */
  predicate CannotCommit(db: OrderDb, m: Message) {
    && m.id !in db.processed
    && (m.body.sagaId !in db.sagas || (NeedsOrder(db.sagas[m.body.sagaId], m.body) && m.body.orderId !in db.orders))
  }

  /** An event that is processed already, or that its saga does not wait for. */
  predicate NothingToDo(db: OrderDb, m: Message) {
    m.id in db.processed || (m.body.sagaId in db.sagas && !Awaits(db.sagas[m.body.sagaId], m.body))
  }

  lemma ReactionKinds(db: OrderDb, m: Message)
    requires m.body.IsEvent()
    ensures var res := AfterReaction(React(db, m), RollsBack(db, m));
            && (res == Failed <==> CannotCommit(db, m))
            && (res == Skipped <==> NothingToDo(db, m))
            && (React(db, m).Ignored? <==> res == Failed || res == Skipped)
  {
  }

  /** All that a call of HandleEvent promises, from world start to world end.
      It fails exactly at a fault or if the event cannot be committed, skips exactly if there is nothing to do,
      and otherwise is one event step, followed by one publish if the event calls for a command. */
  ghost predicate EventDone(start: World, end: World, trace: seq<Action>, wk: WorkerId, m: Message, gap: Gap,
                            attempts: nat -> Attempt, ok: bool, res: EventResult)
  {
    && end == Exec(start, trace)
    && (ok <==> res == Skipped || res == Ended || (res.Send? && Acknowledged(attempts)))
    && (m.body.IsEvent() && gap.fault ==> trace == [] && res == Failed)
    && (!gap.fault ==>
          && Own(trace, wk) == [Action.HandleEvent(wk, m, true)] + (if res.Send? then [LastStep(wk, attempts)] else [])
          && res == AfterReaction(React(start.db, m), RollsBack(start.db, m)))
    && Theirs(trace, wk) == (if res.Send? then gap.others else [])
    && (!m.body.IsEvent() ==> res == Skipped)
    && (m.body.IsEvent() && !gap.fault ==> (res == Failed <==> CannotCommit(start.db, m)))
    && (m.body.IsEvent() && !gap.fault ==> (res == Skipped <==> NothingToDo(start.db, m)))
    && (res == Failed || res == Skipped ==> end == start)
    && (ok && res.Send? ==> Answered(start, end, res.command))
  }

  /** An event that ends its saga is counted by the terminal metric, once and under the status the saga ends with. */
  lemma {:induction false} EndIsCounted(start: World, end: World, trace: seq<Action>, wk: WorkerId, m: Message, gap: Gap,
                                        attempts: nat -> Attempt, ok: bool)
    requires Idle(start, wk) && m in start.net && !gap.fault
    requires EventDone(start, end, trace, wk, m, gap, attempts, ok, Ended)
    ensures m.body.sagaId in end.db.sagas && end.db.sagas[m.body.sagaId].step == Done
    ensures end.terminals == start.terminals + multiset{TerminalRecord(m.body.sagaId, end.db.sagas[m.body.sagaId].status)}
  {
    AllOwn(trace, wk);
    assert end == Exec(start, [Action.HandleEvent(wk, m, true)]);
    EventStep(start, wk, m);
  }

  lemma {:induction false} AllOwn(trace: seq<Action>, wk: WorkerId)
    requires Theirs(trace, wk) == []
    ensures Own(trace, wk) == trace
  {
    if trace != [] {
      AllOwn(trace[..|trace| - 1], wk);
      assert trace == trace[..|trace| - 1] + [trace[|trace| - 1]];
    }
  }

  function WorldAfter(w: World, m: Message): World {
    match React(w.db, m)
    case Ignored => w
    case Moved(db', _, terminal) => Record(Advance(w, db', m.body.sagaId, m.id), m.body.sagaId, terminal)
  }

  class SagaOrchestrator {
    const sys: System

    constructor (system: System)
      ensures sys == system
    {
      sys := system;
    }

    /** Writes the saga row, then publishes the reserve command.  The caller has stored the order; the gap's
        fault is that of the insert. */
    method StartSaga(wk: WorkerId, o: OrderId, order: Order, gap: Gap, attempts: nat -> Attempt)
      returns (ok: bool, created: bool, sagaId: Uuid, ghost trace: seq<Action>)
      requires Idle(sys.World(), wk) && OfOthers(gap.others, wk)
      requires o in sys.orderDb.orders && sys.orderDb.orders[o].productId == order.productId
               && sys.orderDb.orders[o].quantity == order.quantity
      modifies sys.Parts()
      ensures Idle(sys.World(), wk) && sys.World() == Exec(old(sys.World()), trace)
      ensures created <==>
        !gap.fault && o !in old(sys.World()).db.byOrder && old(sys.World()).nextId !in old(sys.World()).db.sagas
      ensures !created ==> trace == []
      ensures created ==> SagaOf(sys.World(), sagaId, o)
                          && Own(trace, wk) == [Action.StartSaga(wk, o), LastStep(wk, attempts)]
                          && Theirs(trace, wk) == gap.others
      ensures ok <==> created && Acknowledged(attempts)
      ensures ok ==> Answered(old(sys.World()), sys.World(), ReserveInventoryCmd(sagaId, o, order.productId, order.quantity))
    {
      ghost var start := sys.World();
      sagaId, trace, created := sys.pub.nextId, [], false;
      if !gap.fault {
        created := sys.orderDb.Create(sagaId, o);
      }
      if !created {
        return false, false, sagaId, trace;
      }
      sagaId := sys.pub.NewUUID();
      sys.hist := sys.hist[sagaId := []];
      var cmd := ReserveInventoryCmd(sagaId, o, order.productId, order.quantity);
      ExecOne(start, Action.StartSaga(wk, o));
      OwnStep([], Action.StartSaga(wk, o), wk);
      ghost var now := sys.During(wk, Pub(cmd));
      ok, trace := sys.Reply(wk, cmd, gap, attempts, start, [Action.StartSaga(wk, o)]);
      SagaFixed(now, trace[1..], sagaId, o);
    }

    /** The metric counts each terminal transition. */
    method RecordTerminal(s: Uuid, status: SagaStatus)
      modifies sys`terminals
      ensures sys.terminals == old(sys.terminals) + multiset{TerminalRecord(s, status)}
    {
      sys.terminals := sys.terminals + multiset{TerminalRecord(s, status)};
    }

    method NoteMove(m: Message)
      modifies sys`hist
      ensures sys.hist == old(sys.hist)[m.body.sagaId :=
                (if m.body.sagaId in old(sys.hist) then old(sys.hist)[m.body.sagaId] else []) + [m.id]]
    {
      sys.hist := sys.hist[m.body.sagaId := (if m.body.sagaId in sys.hist then sys.hist[m.body.sagaId] else []) + [m.id]];
    }

    method OnInventoryReserved(m: Message) returns (res: EventResult)
      requires m.body.InventoryReservedEvent?
      modifies sys, sys.orderDb
      ensures sys.World() == WorldAfter(old(sys.World()), m)
      ensures res == AfterReaction(React(old(sys.World()).db, m), RollsBack(old(sys.World()).db, m))
    {
      var tx := sys.orderDb.CommitInventoryReserved(m.id, m.body);
      if tx.None? {
        return Failed;
      }
      var out := tx.value;
      if out.skip {
        return Skipped;
      }
      NoteMove(m);
      if out.failed {
        RecordTerminal(m.body.sagaId, SagaFailed);
        return Ended;
      }
      res := EventResult.Send(ProcessPaymentCmd(m.body.sagaId, m.body.orderId, out.amount));
    }

    method OnPaymentProcessed(m: Message) returns (res: EventResult)
      requires m.body.PaymentProcessedEvent?
      modifies sys, sys.orderDb
      ensures sys.World() == WorldAfter(old(sys.World()), m)
      ensures res == AfterReaction(React(old(sys.World()).db, m), RollsBack(old(sys.World()).db, m))
    {
      var tx := sys.orderDb.CommitPaymentProcessed(m.id, m.body);
      if tx.None? {
        return Failed;
      }
      var out := tx.value;
      if out.skip {
        return Skipped;
      }
      NoteMove(m);
      if !out.compensate {
        RecordTerminal(m.body.sagaId, Completed);
        return Ended;
      }
      res := EventResult.Send(ReleaseInventoryCmd(m.body.sagaId, m.body.orderId, out.productId, out.quantity));
    }

    method OnInventoryReleased(m: Message) returns (res: EventResult)
      requires m.body.InventoryReleasedEvent?
      modifies sys, sys.orderDb
      ensures sys.World() == WorldAfter(old(sys.World()), m)
      ensures res == AfterReaction(React(old(sys.World()).db, m), RollsBack(old(sys.World()).db, m))
    {
      var tx := sys.orderDb.CommitInventoryReleased(m.id, m.body);
      if tx.None? {
        return Failed;
      }
      var out := tx.value;
      if out.skip {
        return Skipped;
      }
      NoteMove(m);
      if out.failed {
        RecordTerminal(m.body.sagaId, SagaFailed);
      } else {
        RecordTerminal(m.body.sagaId, SagaCompensated);
      }
      res := Ended;
    }

    /** The consumer handler of order.events; commands carry unknown routing keys and are skipped.  The gap's
        fault is that of the transaction. */
    method HandleEvent(wk: WorkerId, m: Message, gap: Gap, attempts: nat -> Attempt)
      returns (ok: bool, res: EventResult, ghost trace: seq<Action>)
      requires m in sys.pub.net && Idle(sys.World(), wk) && OfOthers(gap.others, wk)
      modifies sys.Parts()
      ensures Idle(sys.World(), wk)
      ensures EventDone(old(sys.World()), sys.World(), trace, wk, m, gap, attempts, ok, res)
    {
      ghost var start := sys.World();
      if gap.fault && m.body.IsEvent() {
        return false, Failed, [];
      }
      trace := [Action.HandleEvent(wk, m, true)];
      OwnStep([], Action.HandleEvent(wk, m, true), wk);
      match m.body {
        case InventoryReservedEvent(_, _, _, _, _, _) => res := OnInventoryReserved(m);
        case PaymentProcessedEvent(_, _, _, _, _) => res := OnPaymentProcessed(m);
        case InventoryReleasedEvent(_, _, _, _, _, _) => res := OnInventoryReleased(m);
        case _ => res := Skipped;
      }
      EventStep(start, wk, m);
      if m.body.IsEvent() {
        ReactionKinds(start.db, m);
      }
      if res.Send? {
        ok, trace := sys.Reply(wk, res.command, gap, attempts, start, trace);
      } else {
        ok := res != Failed;
      }
    }
  }

  lemma EventStep(w: World, wk: WorkerId, m: Message)
    requires Idle(w, wk) && m in w.net
    ensures var w1 := WorldAfter(w, m);
            Exec(w, [Action.HandleEvent(wk, m, true)]) ==
            match AfterReaction(React(w.db, m), RollsBack(w.db, m))
            case Send(c) => Assign(w1, wk, Pub(c))
            case _ => w1
  {
    ExecOne(w, Action.HandleEvent(wk, m, true));
  }
}
