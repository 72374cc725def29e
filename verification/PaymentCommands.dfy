/** The payment worker. */
module PaymentCommands {
  import opened SagaTypes
  import opened PaymentDatabase
  import opened Protocol
  import opened Safety
  import opened Network
  import opened Cluster

  /** Which branch a payment command took. */
  datatype PaymentOutcome = Skipped | RowExists | RowInserted | NotHandled

  /** What an outcome says about the payment database before and after the call.  An error without an
      answer is a database fault or an insert that lost the race for one of its unique keys. */
  ghost predicate PaymentExplained(before: PaymentDb, after: PaymentDb, m: Message, outcome: PaymentOutcome, declined: bool,
                            faulty: bool)
    requires m.body.ProcessPaymentCmd?
  {
    var o := m.body.orderId;
    true == match outcome
    case Skipped => m.id in before.processed && after == before
    case RowExists => m.id !in before.processed && o in after.payments
    case RowInserted =>
      && m.id !in before.processed && o !in before.payments
      && m.id in after.processed && o in after.payments
      && after.payments[o].amount == m.body.amount
      && after.payments[o].status == (if declined then PaymentFailed else PaymentSuccess)
    case NotHandled => faulty || o in after.payments || m.id in after.processed
  }

  // ---------------------------------------------------------------- the worker's own steps

  /** The worker's own steps up to the event that is to be published, or to the error: a fault at the lookup,
      a fault at the insert, or an insert that met one of its unique keys. */
  predicate SettleSteps(own: seq<Action>, wk: WorkerId, m: Message, outcome: PaymentOutcome, declined: bool,
                        env: nat -> Gap)
  {
    match outcome
    case Skipped => own == []
    case RowExists => own == [BeginPayment(wk, m), LookupPayment(wk)]
    case RowInserted => own == [BeginPayment(wk, m), LookupPayment(wk), InsertPayment(wk, declined)]
    case NotHandled =>
      if env(1).fault then own == [BeginPayment(wk, m), Crash(wk)]
      else if env(2).fault then own == [BeginPayment(wk, m), LookupPayment(wk), Crash(wk)]
      else own == [BeginPayment(wk, m), LookupPayment(wk), InsertPayment(wk, declined)]
  }

  /** Of the run that a call is, the worker's own steps are those of handleProcess; none if the first check
      fails or finds the message processed. */
  ghost predicate PaymentSteps(own: seq<Action>, wk: WorkerId, m: Message, outcome: PaymentOutcome, declined: bool,
                               last: Action, env: nat -> Gap)
  {
    if env(0).fault then own == [] && outcome == NotHandled
    else if outcome == Skipped || outcome == NotHandled then SettleSteps(own, wk, m, outcome, declined, env)
    else own != [] && own[|own| - 1] == last && SettleSteps(own[..|own| - 1], wk, m, outcome, declined, env)
  }

  /** All that a call of handleProcess promises, from world start to world end.
      A command that was processed before is skipped, and no other.  Unless a check itself fails, an order that
      has a payment row is answered from it.  An acknowledged command was skipped, or its answer carries the
      row that the order has at the end. */
  ghost predicate PaymentDone(start: World, end: World, trace: seq<Action>, wk: WorkerId, m: Message, env: nat -> Gap,
                              declined: bool, attempts: nat -> Attempt, ok: bool, outcome: PaymentOutcome)
    requires m.body.ProcessPaymentCmd?
  {
    && end == Exec(start, trace)
    && (ok <==> outcome == Skipped || (outcome != NotHandled && Acknowledged(attempts)))
    && PaymentExplained(start.pay, end.pay, m, outcome, declined, Faulty(env, 2))
    && (outcome == Skipped || env(0).fault ==> trace == [])
    && PaymentSteps(Own(trace, wk), wk, m, outcome, declined, LastStep(wk, attempts), env)
    && OthersFrom(trace, wk, env, 3)
    && (!env(0).fault ==> (outcome == Skipped <==> m.id in start.pay.processed))
    && (!Faulty(env, 1) && m.id !in start.pay.processed && m.body.orderId in start.pay.payments ==> outcome == RowExists)
    && (ok && outcome != Skipped ==>
          && m.body.orderId in end.pay.payments
          && var row := end.pay.payments[m.body.orderId];
             var paid := row.status == PaymentSuccess;
             Answered(start, end, PaymentProcessedEvent(m.body.sagaId, m.body.orderId, row.transactionId, paid,
                                                        if paid then "" else "SIMULATED_FAILURE")))
  }

  lemma BeginPaymentStep(w: World, wk: WorkerId, m: Message)
    requires Idle(w, wk) && m in w.net && m.body.ProcessPaymentCmd? && m.id !in w.pay.processed
    ensures Exec(w, [BeginPayment(wk, m)]) == Assign(w, wk, PayLookup(m.body, m.id))
  {
    ExecOne(w, BeginPayment(wk, m));
  }

  lemma LookupStep(w: World, wk: WorkerId, cmd: Payload, id: Uuid)
    requires Idle(w, wk)
    ensures Next(Assign(w, wk, PayLookup(cmd, id)), LookupPayment(wk)) ==
      if cmd.orderId in w.pay.payments then Assign(w, wk, Pub(PaymentReply(cmd, w.pay.payments[cmd.orderId])))
      else Assign(w, wk, PayInsert(cmd, id))
  {
  }

  lemma InsertStep(w: World, wk: WorkerId, cmd: Payload, id: Uuid, declined: bool)
    requires Idle(w, wk) && cmd.ProcessPaymentCmd?
    ensures var row := Payment(cmd.amount, if declined then PaymentFailed else PaymentSuccess, w.nextId);
      Next(Assign(w, wk, PayInsert(cmd, id)), InsertPayment(wk, declined)) ==
      match InsertPaymentTx(w.pay, cmd.orderId, row, id)
      case None => w
      case Some(pay') => Assign(w.(pay := pay', nextId := w.nextId + 1), wk, Pub(PaymentReply(cmd, row)))
  {
    Dropped(w, wk, PayInsert(cmd, id));
  }

  class PaymentCommandHandler {
    const sys: System

    constructor (system: System)
      ensures sys == system
    {
      sys := system;
    }

    /** GetByOrderID; an error is None, a missing row is Some(None). */
    method Lookup(wk: WorkerId, m: Message, gap: Gap, ghost start: World, ghost begun: seq<Action>)
      returns (existing: Option<Option<Payment>>, ghost trace: seq<Action>)
      requires m.body.ProcessPaymentCmd? && Idle(sys.World(), wk) && OfOthers(gap.others, wk)
      requires sys.During(wk, PayLookup(m.body, m.id)) == Exec(start, begun)
      modifies sys.Parts()
      ensures Idle(sys.World(), wk)
      ensures m.body.orderId in old(sys.World()).pay.payments ==> m.body.orderId in sys.World().pay.payments
      ensures Own(trace, wk) == Own(begun, wk) + [if gap.fault then Crash(wk) else LookupPayment(wk)]
      ensures Theirs(trace, wk) == Theirs(begun, wk) + gap.others
      ensures existing.None? <==> gap.fault
      ensures existing.None? ==> gap.fault && sys.World() == Exec(start, trace)
      ensures existing.Some? ==>
        && existing.value == (if m.body.orderId in sys.World().pay.payments
                              then Some(sys.World().pay.payments[m.body.orderId]) else None)
        && Exec(start, trace) == sys.During(wk, if existing.value.Some? then Pub(PaymentReply(m.body, existing.value.value))
                                                else PayInsert(m.body, m.id))
    {
      ghost var before := sys.World();
      trace := sys.Others(wk, gap.others, PayLookup(m.body, m.id), start, begun);
      PaymentFixed(before, gap.others, m.body.orderId, m.id);
      ghost var step := if gap.fault then Crash(wk) else LookupPayment(wk);
      ExecSnoc(start, trace, step);
      OwnStep(trace, step, wk);
      if gap.fault {
        GivenUp(sys.World(), wk, PayLookup(m.body, m.id), start, trace);
        existing := None;
      } else {
        LookupStep(sys.World(), wk, m.body, m.id);
        var row := sys.payments.GetByOrderID(m.body.orderId);
        existing := Some(row);
      }
      trace := trace + [step];
    }

    /** CreatePaymentWithEvent.  The id of a row that is never inserted is not counted as used. */
    method Insert(wk: WorkerId, m: Message, declined: bool, gap: Gap, ghost start: World, ghost begun: seq<Action>)
      returns (created: bool, txId: Uuid, ghost trace: seq<Action>)
      requires m.body.ProcessPaymentCmd? && Idle(sys.World(), wk) && OfOthers(gap.others, wk)
      requires sys.During(wk, PayInsert(m.body, m.id)) == Exec(start, begun)
      modifies sys.Parts()
      ensures Idle(sys.World(), wk)
      ensures Own(trace, wk) == Own(begun, wk) + [if gap.fault then Crash(wk) else InsertPayment(wk, declined)]
      ensures Theirs(trace, wk) == Theirs(begun, wk) + gap.others
      ensures gap.fault ==> !created
      ensures var row := Payment(m.body.amount, if declined then PaymentFailed else PaymentSuccess, txId);
        if created then
          && m.body.orderId !in old(sys.World()).pay.payments && m.id in sys.World().pay.processed
          && m.body.orderId in sys.World().pay.payments && sys.World().pay.payments[m.body.orderId] == row
          && Exec(start, trace) == sys.During(wk, Pub(PaymentReply(m.body, row)))
        else
          && (gap.fault || m.body.orderId in sys.World().pay.payments || m.id in sys.World().pay.processed)
          && sys.World() == Exec(start, trace)
    {
      ghost var before := sys.World();
      trace := sys.Others(wk, gap.others, PayInsert(m.body, m.id), start, begun);
      PaymentFixed(before, gap.others, m.body.orderId, m.id);
      ghost var step := if gap.fault then Crash(wk) else InsertPayment(wk, declined);
      ExecSnoc(start, trace, step);
      OwnStep(trace, step, wk);
      txId, created := sys.pub.nextId, false;
      if gap.fault {
        GivenUp(sys.World(), wk, PayInsert(m.body, m.id), start, trace);
      } else {
        InsertStep(sys.World(), wk, m.body, m.id, declined);
        var row := Payment(m.body.amount, if declined then PaymentFailed else PaymentSuccess, txId);
        created := sys.payments.CreatePaymentWithEvent(m.body.orderId, row, m.id);
        if created {
          txId := sys.pub.NewUUID();
        }
      }
      trace := trace + [step];
    }

    /** From the lookup to the event that is to be published. */
    method Settle(wk: WorkerId, m: Message, env: nat -> Gap, declined: bool, ghost start: World, ghost begun: seq<Action>)
      returns (outcome: PaymentOutcome, event: Payload, ghost trace: seq<Action>, ghost gaps: nat)
      requires m.body.ProcessPaymentCmd? && Idle(sys.World(), wk) && OthersOnly(env, wk)
      requires sys.During(wk, PayLookup(m.body, m.id)) == Exec(start, begun)
      requires Own(begun, wk) == [BeginPayment(wk, m)] && Theirs(begun, wk) == []
      requires start.pay == sys.World().pay && m.id !in start.pay.processed
      modifies sys.Parts()
      ensures Idle(sys.World(), wk) && outcome != Skipped
      ensures SettleSteps(Own(trace, wk), wk, m, outcome, declined, env)
      ensures Theirs(trace, wk) == Batches(env, gaps) && gaps <= 2
      ensures outcome != NotHandled ==> gaps == if outcome == RowExists then 1 else 2
      ensures m.body.orderId in start.pay.payments && !env(1).fault ==> outcome == RowExists
      ensures PaymentExplained(start.pay, sys.World().pay, m, outcome, declined, Faulty(env, 2))
      ensures outcome == NotHandled ==> sys.World() == Exec(start, trace)
      ensures outcome != NotHandled ==>
        && m.body.orderId in sys.World().pay.payments
        && event == PaymentReply(m.body, sys.World().pay.payments[m.body.orderId])
        && sys.During(wk, Pub(event)) == Exec(start, trace)
    {
      outcome, event, gaps := NotHandled, m.body, 1;
      var existing: Option<Option<Payment>>;
      existing, trace := Lookup(wk, m, env(1), start, begun);
      assert Batches(env, 0) == [] && Theirs(trace, wk) == Batches(env, 1);
      if existing.None? {
        return;
      }
      var txId, success, reason := 0, false, "";
      if existing.value.Some? {
        var row := existing.value.value;
        txId, success := row.transactionId, row.status == PaymentSuccess;
        if !success {
          reason := SIMULATED_FAILURE;
        }
        outcome := RowExists;
      } else {
        if declined {
          reason := SIMULATED_FAILURE;
        }
        var created: bool;
        created, txId, trace := Insert(wk, m, declined, env(2), start, trace);
        gaps := 2;
        assert Theirs(trace, wk) == Batches(env, 2);
        if !created {
          return;
        }
        success := !declined;
        outcome := RowInserted;
      }
      event := PaymentProcessedEvent(m.body.sagaId, m.body.orderId, txId, success, reason);
    }

    /** Under any interleaving the call is a run of the protocol, made of the steps of handleProcess and of the
        others' steps in its gaps.  An acknowledged command was processed before, or its answer carries the
        payment row that the order has, and keeps, at the end; unless one of the two checks itself fails, an
        order that was paid for before is always answered. */
    method HandleProcess(wk: WorkerId, m: Message, env: nat -> Gap, declined: bool, attempts: nat -> Attempt)
      returns (ok: bool, outcome: PaymentOutcome, ghost trace: seq<Action>)
      requires m in sys.pub.net && m.body.ProcessPaymentCmd?
      requires Idle(sys.World(), wk) && OthersOnly(env, wk)
      modifies sys.Parts()
      ensures Idle(sys.World(), wk)
      ensures PaymentDone(old(sys.World()), sys.World(), trace, wk, m, env, declined, attempts, ok, outcome)
    {
      ghost var start := sys.World();
      outcome, trace := NotHandled, [];
      assert Theirs(trace, wk) == Batches(env, 0);
      if env(0).fault {
        return false, NotHandled, trace;
      }
      var done := sys.payments.IsProcessed(m.id);
      if done {
        return true, Skipped, trace;
      }
      BeginPaymentStep(start, wk, m);
      OwnStep([], BeginPayment(wk, m), wk);
      var event: Payload;
      ghost var gaps;
      outcome, event, trace, gaps := Settle(wk, m, env, declined, start, [BeginPayment(wk, m)]);
      if outcome == NotHandled {
        return false, NotHandled, trace;
      }
      ghost var last, settled := sys.During(wk, Pub(event)), trace;
      var gap := env(if outcome == RowExists then 2 else 3);
      ok, trace := sys.Reply(wk, event, gap, attempts, start, trace);
      PaymentFixed(last, trace[|settled|..], m.body.orderId, m.id);
      assert Own(trace, wk)[..|Own(trace, wk)| - 1] == Own(settled, wk);
      assert Theirs(trace, wk) == Batches(env, if outcome == RowExists then 2 else 3);
    }
  }
}
