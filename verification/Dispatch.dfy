/** The consumer handlers of the three services: the switch on the routing key, and the errors that they
    hand back to the consumer. */
module Dispatch {
  import opened SagaTypes
  import opened Protocol
  import opened AmqpRetry
  import opened BrokerTopology
  import opened Routing
  import opened Wiring
  import opened Network
  import opened Cluster
  import opened InventoryCommands
  import opened PaymentCommands
  import opened Orchestrator

  const MALFORMED := SomeError(Plain("unmarshal"))

  function FailedCall(ok: bool): ErrorOption {
    if ok then NoError else SomeError(Wrapped("handler", Plain("")))
  }

  /** What arrives at a queue of service s under a key: a message of the network whose key it is, or, for a
      key that s does not know, any message; or a body that cannot be parsed. */
  ghost predicate Arrived(w: World, s: Service, key: string, parsed: Option<Message>) {
    parsed.Some? ==> parsed.value in w.net && (HandledKey(s, key) ==> KeyOf(parsed.value.body) == key)
  }

  /** A handler fails only on keys it knows, and permanently exactly on a body that it cannot parse. */
  ghost predicate WellDispatched(s: Service, key: string, parsed: Option<Message>, err: ErrorOption) {
    && (err.SomeError? ==> HandledKey(s, key))
    && (IsPermanent(err) <==> HandledKey(s, key) && parsed.None?)
  }

  lemma KnownKeys(key: string)
    ensures HandledKey(INVENTORY, key) <==> key == INVENTORY_RESERVE || key == INVENTORY_RELEASE
    ensures HandledKey(PAYMENT, key) <==> key == PAYMENT_PROCESS
    ensures HandledKey(ORDER, key) <==> key == INVENTORY_RESERVED || key == PAYMENT_PROCESSED || key == INVENTORY_RELEASED
  {
    ServicesDiffer();
  }

  lemma ServicesDiffer()
    ensures ORDER != INVENTORY && INVENTORY != PAYMENT && ORDER != PAYMENT
  {
    assert ORDER.queue[0] == 'o' && INVENTORY.queue[0] == 'i' && PAYMENT.queue[0] == 'p';
  }

  /** The call that a dispatcher made, with its result; none for an unknown key or a malformed body. */
  datatype Call =
    | NoCall
    | ReserveCall(reserve: ReserveOutcome)
    | ReleaseCall(release: ReleaseOutcome)
    | PaymentCall(payment: PaymentOutcome)
    | EventCall(event: EventResult)

  class Handlers {
    const sys: System
    const inventory: InventoryCommandHandler
    const payments: PaymentCommandHandler
    const orchestrator: SagaOrchestrator

    constructor (system: System)
      ensures sys == system && Wired()
    {
      sys := system;
      inventory := new InventoryCommandHandler(system);
      payments := new PaymentCommandHandler(system);
      orchestrator := new SagaOrchestrator(system);
    }

    ghost predicate Wired() {
      inventory.sys == sys && payments.sys == sys && orchestrator.sys == sys
    }

    /** The handler of inventory.commands. */
    method HandleInventory(wk: WorkerId, key: string, parsed: Option<Message>, env: nat -> Gap, errorText: string,
                           attempts: nat -> Attempt)
      returns (err: ErrorOption, call: Call, ghost trace: seq<Action>, ghost seen: nat)
      requires Wired() && Arrived(sys.World(), INVENTORY, key, parsed)
      requires Idle(sys.World(), wk) && OthersOnly(env, wk)
      modifies sys.Parts()
      ensures Idle(sys.World(), wk) && sys.World() == Exec(old(sys.World()), trace)
      ensures WellDispatched(INVENTORY, key, parsed, err)
      ensures parsed.None? || !HandledKey(INVENTORY, key) ==> trace == [] && call == NoCall
      // a known key and a body that parses: the handler of that key ran, and its result is returned
      ensures key == "inventory.reserve" && parsed.Some? ==>
        && call.ReserveCall? && parsed.value.body.ReserveInventoryCmd?
        && ReserveDone(old(sys.World()), sys.World(), trace, seen, wk, parsed.value, env, attempts, err == NoError,
                       call.reserve)
      ensures key == "inventory.release" && parsed.Some? ==>
        && call.ReleaseCall? && parsed.value.body.ReleaseInventoryCmd?
        && ReleaseDone(old(sys.World()), sys.World(), trace, wk, parsed.value, env, errorText, attempts, err == NoError,
                       call.release)
    {
      KnownKeys(key);
      trace, call, seen := [], NoCall, 0;
      if key == INVENTORY_RESERVE {
        if parsed.None? {
          return MarkPermanent(MALFORMED), call, trace, seen;
        }
        KeyNamesKind(parsed.value.body, key);
        var ok, outcome;
        ok, outcome, trace, seen := inventory.HandleReserve(wk, parsed.value, env, attempts);
        err, call := FailedCall(ok), ReserveCall(outcome);
        KeysDiffer();
      } else if key == INVENTORY_RELEASE {
        if parsed.None? {
          return MarkPermanent(MALFORMED), call, trace, seen;
        }
        KeyNamesKind(parsed.value.body, key);
        var ok, outcome;
        ok, outcome, trace := inventory.HandleRelease(wk, parsed.value, env, errorText, attempts);
        err, call := FailedCall(ok), ReleaseCall(outcome);
      } else {
        err := NoError;
      }
    }

    /** The handler of payment.commands. */
    method HandlePayment(wk: WorkerId, key: string, parsed: Option<Message>, env: nat -> Gap, declined: bool,
                         attempts: nat -> Attempt)
      returns (err: ErrorOption, call: Call, ghost trace: seq<Action>)
      requires Wired() && Arrived(sys.World(), PAYMENT, key, parsed)
      requires Idle(sys.World(), wk) && OthersOnly(env, wk)
      modifies sys.Parts()
      ensures Idle(sys.World(), wk) && sys.World() == Exec(old(sys.World()), trace)
      ensures WellDispatched(PAYMENT, key, parsed, err)
      ensures parsed.None? || !HandledKey(PAYMENT, key) ==> trace == [] && call == NoCall
      ensures key == "payment.process" && parsed.Some? ==>
        && call.PaymentCall? && parsed.value.body.ProcessPaymentCmd?
        && PaymentDone(old(sys.World()), sys.World(), trace, wk, parsed.value, env, declined, attempts, err == NoError,
                       call.payment)
    {
      KnownKeys(key);
      trace, call := [], NoCall;
      if key != PAYMENT_PROCESS {
        return NoError, call, trace;
      }
      if parsed.None? {
        return MarkPermanent(MALFORMED), call, trace;
      }
      KeyNamesKind(parsed.value.body, key);
      var ok, outcome;
      ok, outcome, trace := payments.HandleProcess(wk, parsed.value, env, declined, attempts);
      err, call := FailedCall(ok), PaymentCall(outcome);
    }

    /** The handler of order.events. */
    method HandleOrder(wk: WorkerId, key: string, parsed: Option<Message>, gap: Gap, attempts: nat -> Attempt)
      returns (err: ErrorOption, call: Call, ghost trace: seq<Action>)
      requires Wired() && Arrived(sys.World(), ORDER, key, parsed)
      requires Idle(sys.World(), wk) && OfOthers(gap.others, wk)
      modifies sys.Parts()
      ensures Idle(sys.World(), wk) && sys.World() == Exec(old(sys.World()), trace)
      ensures WellDispatched(ORDER, key, parsed, err)
      ensures parsed.None? || !HandledKey(ORDER, key) ==> trace == [] && call == NoCall
      ensures (key == "inventory.reserved" || key == "payment.processed" || key == "inventory.released") && parsed.Some? ==>
        && call.EventCall? && parsed.value.body.IsEvent()
        && EventDone(old(sys.World()), sys.World(), trace, wk, parsed.value, gap, attempts, err == NoError, call.event)
    {
      KnownKeys(key);
      trace, call := [], NoCall;
      if key != INVENTORY_RESERVED && key != PAYMENT_PROCESSED && key != INVENTORY_RELEASED {
        return NoError, call, trace;
      }
      if parsed.None? {
        return MarkPermanent(MALFORMED), call, trace;
      }
      KeyNamesKind(parsed.value.body, key);
      var ok, res;
      ok, res, trace := orchestrator.HandleEvent(wk, parsed.value, gap, attempts);
      err, call := FailedCall(ok), EventCall(res);
    }
  }
}
