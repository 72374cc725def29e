/** Where the three topologies together send a message. */
module Routing {
  import opened SagaTypes
  import opened AmqpRetry
  import opened BrokerTopology

  predicate IsService(s: Service) { s == ORDER || s == INVENTORY || s == PAYMENT }

  /** The routing keys on which the handler of a service can return an error; any other key it skips. */
  predicate HandledKey(s: Service, key: string) {
    (s == ORDER && (key == INVENTORY_RESERVED || key == PAYMENT_PROCESSED || key == INVENTORY_RELEASED))
    || (s == INVENTORY && (key == INVENTORY_RESERVE || key == INVENTORY_RELEASE))
    || (s == PAYMENT && key == PAYMENT_PROCESS)
  }

  // ---------------------------------------------------------------- names

  lemma KeysDiffer()
    ensures INVENTORY_RESERVE != INVENTORY_RELEASE && INVENTORY_RESERVED != INVENTORY_RELEASED
    ensures PAYMENT_PROCESSED != INVENTORY_RESERVE && PAYMENT_PROCESSED != INVENTORY_RELEASE
  {
    assert INVENTORY_RESERVE[12] == 's' && INVENTORY_RELEASE[12] == 'l';
    assert INVENTORY_RESERVED[12] == 's' && INVENTORY_RELEASED[12] == 'l';
    assert PAYMENT_PROCESSED[0] == 'p' && INVENTORY_RESERVE[0] == 'i' && INVENTORY_RELEASE[0] == 'i';
  }

  /** No key is bound to two retry queues. */
  lemma KeyOwner(s: Service, s': Service, key: string)
    requires IsService(s) && IsService(s') && key in s.retryKeys && key in s'.retryKeys
    ensures s == s'
  {
    KeysDiffer();
  }

  /** Services declare different queues. */
  lemma QueuesDiffer(s: Service, s': Service)
    requires IsService(s) && IsService(s') && s != s'
    ensures Part(s).queues.Keys !! Part(s').queues.Keys
  {
    assert s.queue[0] != s'.queue[0];
    assert s.Dlq()[0] == s.queue[0] && s'.Dlq()[0] == s'.queue[0];
    assert s.RetryQueue()[0] == s.queue[0] && s'.RetryQueue()[0] == s'.queue[0];
  }

  // ---------------------------------------------------------------- the whole topology

  predicate BoundBy(s: Service, b: Binding) {
    || (b.queue == s.queue && b.exchange == s.exchange && b.key in s.keys)
    || (b.queue == s.RetryQueue() && b.exchange == RETRY_EXCHANGE && b.key in s.retryKeys)
  }

  lemma FullBindings(b: Binding)
    ensures b in Full().bindings <==> BoundBy(ORDER, b) || BoundBy(INVENTORY, b) || BoundBy(PAYMENT, b)
  {
    PartBindings(ORDER, b);
    PartBindings(INVENTORY, b);
    PartBindings(PAYMENT, b);
  }

  lemma PartBindings(s: Service, b: Binding)
    ensures b in Part(s).bindings <==> BoundBy(s, b)
  {
  }

  lemma FullQueue(s: Service, q: string)
    requires IsService(s) && q in Part(s).queues
    ensures q in Full().queues && Full().queues[q] == Part(s).queues[q]
  {
    if s != INVENTORY { QueuesDiffer(s, INVENTORY); }
    if s != PAYMENT { QueuesDiffer(s, PAYMENT); }
  }

  lemma FullExchanges()
    ensures Full().exchanges == map[COMMANDS := Direct, EVENTS := Topic, RETRY_EXCHANGE := Direct]
  {
  }

  lemma ServiceQueues(s: Service)
    requires IsService(s)
    ensures s.queue in Full().queues && Full().queues[s.queue] == MainArgs(s)
    ensures s.Dlq() in Full().queues && Full().queues[s.Dlq()] == DlqArgs()
    ensures s.RetryQueue() in Full().queues && Full().queues[s.RetryQueue()] == RetryArgs(s)
  {
    NamesDiffer(s);
    FullQueue(s, s.queue);
    FullQueue(s, s.Dlq());
    FullQueue(s, s.RetryQueue());
  }

  predicate HasQueue(name: string, args: QueueArgs) {
    name in Full().queues && Full().queues[name] == args
  }

  /** What each queue does with a copy it gives up: the dead-letter queue takes what is rejected and keeps it; what
      has waited five seconds in the retry queue goes back, under its own key, to the exchange it came from. */
  lemma {:induction false} QueueTable(s: Service)
    requires IsService(s)
    ensures s.queue == "order.events" || s.queue == "inventory.commands" || s.queue == "payment.commands"
    ensures HasQueue(s.queue, QueueArgs(Some(""), Some(s.queue + ".dlq"), None))
    ensures HasQueue(s.queue + ".dlq", QueueArgs(None, None, None))
    ensures HasQueue(s.queue + ".retry",
                     QueueArgs(Some(if s.queue == "order.events" then "saga.events" else "saga.commands"), None, Some(5000)))
  {
    ServiceQueues(s);
    assert s.queue[0] == 'o' <==> s == ORDER;
  }

  // ---------------------------------------------------------------- the services start in any order

  function Declared(order: seq<Service>): Topology {
    if order == [] then Topology(map[], map[], {})
    else Merge(Declared(order[..|order| - 1]), Part(order[|order| - 1]))
  }

  predicate Within(t: Topology, u: Topology) {
    && (forall e | e in t.exchanges :: e in u.exchanges && t.exchanges[e] == u.exchanges[e])
    && (forall q | q in t.queues :: q in u.queues && t.queues[q] == u.queues[q])
    && t.bindings <= u.bindings
  }

  lemma WithinFull(s: Service)
    requires IsService(s)
    ensures Within(Part(s), Full())
  {
    forall q | q in Part(s).queues { FullQueue(s, q); }
  }

  lemma {:induction false} DeclaredWithin(order: seq<Service>)
    requires forall s | s in order :: IsService(s)
    ensures Within(Declared(order), Full())
    ensures forall s | s in order :: Within(Part(s), Declared(order))
    decreases |order|
  {
    if order != [] {
      var rest, last := order[..|order| - 1], order[|order| - 1];
      DeclaredWithin(rest);
      WithinFull(last);
      forall s | s in order ensures Within(Part(s), Declared(order)) {
        WithinFull(s);
        assert s in rest || s == last;
      }
    }
  }

  /** Whatever the order and however often the services start, no declaration is refused, and once each
      has started the broker holds the one full topology. */
  lemma {:induction false} AnyStartOrder(order: seq<Service>, i: nat)
    requires forall s | s in order :: IsService(s)
    requires i < |order|
    ensures Compatible(Declared(order[..i]), Part(order[i]))
    ensures ORDER in order && INVENTORY in order && PAYMENT in order ==> Declared(order) == Full()
  {
    DeclaredWithin(order[..i]);
    WithinFull(order[i]);
    if ORDER in order && INVENTORY in order && PAYMENT in order {
      DeclaredWithin(order);
      Antisymmetric(Declared(order), Full());
    }
  }

  lemma Antisymmetric(t: Topology, u: Topology)
    requires Within(t, u) && u == Full()
    requires Within(Part(ORDER), t) && Within(Part(INVENTORY), t) && Within(Part(PAYMENT), t)
    ensures t == u
  {
    assert t.exchanges.Keys == u.exchanges.Keys;
    assert t.queues.Keys == u.queues.Keys;
    assert t.exchanges == u.exchanges && t.queues == u.queues && t.bindings == u.bindings;
  }

  // ---------------------------------------------------------------- routing

  lemma HashMatchesAll(key: string)
    ensures KeyMatches(Topic, "#", key)
  {
    assert "#"[1..] == "" && Words("") == [""] && ['#'] + "" == "#";
    assert Words("#") == [['#'] + ""] + [""][1..];
    assert Words("#") == ["#"];
    PatternMeaning(["#"], Words(key));
  }

  /** Every key of a service reaches its queue, and no other queue, through its own exchange. */
  lemma {:induction false} MainRoute(s: Service, key: string)
    requires IsService(s) && key in s.retryKeys
    ensures Route(Full(), s.exchange, key) == {s.queue}
  {
    ServiceQueues(s);
    if s == ORDER {
      EventRoute(key);
    } else {
      CommandRoute(s, key);
    }
  }

  lemma EventRoute(key: string)
    ensures Delivers(Full(), EVENTS, key, ORDER.queue)
    ensures forall q :: Delivers(Full(), EVENTS, key, q) ==> q == ORDER.queue
  {
    FullExchanges();
    HashMatchesAll(key);
    FullBindings(Binding(ORDER.queue, "#", EVENTS));
    assert BoundBy(ORDER, Binding(ORDER.queue, "#", EVENTS));
    forall b | b in Full().bindings && b.exchange == EVENTS ensures b.queue == ORDER.queue {
      FullBindings(b);
    }
  }

  lemma CommandRoute(s: Service, key: string)
    requires (s == INVENTORY || s == PAYMENT) && key in s.retryKeys
    ensures Delivers(Full(), COMMANDS, key, s.queue)
    ensures forall q :: Delivers(Full(), COMMANDS, key, q) ==> q == s.queue
  {
    FullExchanges();
    FullBindings(Binding(s.queue, key, COMMANDS));
    assert BoundBy(s, Binding(s.queue, key, COMMANDS));
    forall b | b in Full().bindings && b.exchange == COMMANDS && b.key == key ensures b.queue == s.queue {
      CommandOwner(s, key, b);
    }
  }

  lemma CommandOwner(s: Service, key: string, b: Binding)
    requires (s == INVENTORY || s == PAYMENT) && key in s.retryKeys
    requires b in Full().bindings && b.exchange == COMMANDS && b.key == key
    ensures b.queue == s.queue
  {
    FullBindings(b);
    assert BoundBy(INVENTORY, b) || BoundBy(PAYMENT, b);
    if BoundBy(INVENTORY, b) {
      KeyOwner(s, INVENTORY, key);
    } else {
      KeyOwner(s, PAYMENT, key);
    }
  }

  /** The shared retry exchange sends it to exactly its own retry queue. */
  lemma {:induction false} RetryRoute(s: Service, key: string)
    requires IsService(s) && key in s.retryKeys
    ensures Route(Full(), RETRY_EXCHANGE, key) == {s.RetryQueue()}
  {
    FullExchanges();
    ServiceQueues(s);
    assert BoundBy(s, Binding(s.RetryQueue(), key, RETRY_EXCHANGE));
    FullBindings(Binding(s.RetryQueue(), key, RETRY_EXCHANGE));
    forall b | b in Full().bindings && b.exchange == RETRY_EXCHANGE && b.key == key ensures b.queue == s.RetryQueue() {
      FullBindings(b);
      if b.key in ORDER.retryKeys { KeyOwner(s, ORDER, key); }
      if b.key in INVENTORY.retryKeys { KeyOwner(s, INVENTORY, key); }
      if b.key in PAYMENT.retryKeys { KeyOwner(s, PAYMENT, key); }
    }
  }

  lemma DlqRoute(s: Service)
    requires IsService(s)
    ensures Route(Full(), "", s.Dlq()) == {s.Dlq()}
  {
    ServiceQueues(s);
  }

  /** A key can be retried exactly when it is one of the seven bound keys; with any other key a republish
      to the retry exchange is dropped by the broker. */
  lemma RetryRouteIff(key: string)
    ensures Route(Full(), RETRY_EXCHANGE, key) != {} <==>
              key in ORDER.retryKeys || key in INVENTORY.retryKeys || key in PAYMENT.retryKeys
  {
    FullExchanges();
    if key in ORDER.retryKeys {
      RetryRoute(ORDER, key);
    } else if key in INVENTORY.retryKeys {
      RetryRoute(INVENTORY, key);
    } else if key in PAYMENT.retryKeys {
      RetryRoute(PAYMENT, key);
    } else {
      forall b | b in Full().bindings && b.exchange == RETRY_EXCHANGE ensures b.key != key {
        FullBindings(b);
      }
    }
  }

  lemma HandledCanRetry(s: Service, key: string)
    requires IsService(s) && HandledKey(s, key)
    ensures key in s.retryKeys
  {
    assert s.retryKeys[0] == key || s.retryKeys[1] == key || (|s.retryKeys| > 2 && s.retryKeys[2] == key);
  }
}

/** Which exchange and key each message is published under, and which service handles it. */
module Wiring {
  import opened SagaTypes
  import opened BrokerTopology
  import opened Routing

  function KeyOf(b: Payload): string {
    match b
    case ReserveInventoryCmd(_, _, _, _) => INVENTORY_RESERVE
    case ReleaseInventoryCmd(_, _, _, _) => INVENTORY_RELEASE
    case ProcessPaymentCmd(_, _, _) => PAYMENT_PROCESS
    case InventoryReservedEvent(_, _, _, _, _, _) => INVENTORY_RESERVED
    case InventoryReleasedEvent(_, _, _, _, _, _) => INVENTORY_RELEASED
    case PaymentProcessedEvent(_, _, _, _, _) => PAYMENT_PROCESSED
  }

  function ExchangeOf(b: Payload): string { if b.IsEvent() then EVENTS else COMMANDS }

  function HandlerOf(b: Payload): Service {
    if b.IsEvent() then ORDER else if b.ProcessPaymentCmd? then PAYMENT else INVENTORY
  }

  /** Every message that the protocol publishes reaches the queue of the one service that handles it, and
      no other queue. */
  lemma {:induction false} ReachesItsHandler(b: Payload)
    ensures HandledKey(HandlerOf(b), KeyOf(b))
    ensures Route(Full(), ExchangeOf(b), KeyOf(b)) == {HandlerOf(b).queue}
  {
    HandledCanRetry(HandlerOf(b), KeyOf(b));
    MainRoute(HandlerOf(b), KeyOf(b));
  }

  /** A handler that switches on the key knows the kind of the body. */
  lemma {:induction false} KeyNamesKind(b: Payload, key: string)
    requires KeyOf(b) == key
    ensures key == INVENTORY_RESERVE <==> b.ReserveInventoryCmd?
    ensures key == INVENTORY_RELEASE <==> b.ReleaseInventoryCmd?
    ensures key == PAYMENT_PROCESS <==> b.ProcessPaymentCmd?
    ensures key == INVENTORY_RESERVED <==> b.InventoryReservedEvent?
    ensures key == INVENTORY_RELEASED <==> b.InventoryReleasedEvent?
    ensures key == PAYMENT_PROCESSED <==> b.PaymentProcessedEvent?
  {
    KeysDiffer();
    assert PAYMENT_PROCESSED[0] != INVENTORY_RESERVED[0] && PAYMENT_PROCESS[0] != INVENTORY_RESERVE[0];
  }
}
