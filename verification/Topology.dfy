/** The exchanges, queues and bindings that the three services declare, and where messages go. */
module BrokerTopology {
  import opened SagaTypes
  import opened AmqpRetry

  datatype Kind = Direct | Topic

  datatype QueueArgs = QueueArgs(deadLetterExchange: Option<string>, deadLetterKey: Option<string>, ttl: Option<nat>)

  datatype Binding = Binding(queue: string, key: string, exchange: string)

  datatype Topology = Topology(exchanges: map<string, Kind>, queues: map<string, QueueArgs>, bindings: set<Binding>)

  const COMMANDS := "saga.commands"
  const EVENTS := "saga.events"
  const INVENTORY_RESERVE := "inventory.reserve"
  const INVENTORY_RELEASE := "inventory.release"
  const PAYMENT_PROCESS := "payment.process"
  const PAYMENT_REFUND := "payment.refund"
  const INVENTORY_RESERVED := "inventory.reserved"
  const INVENTORY_RELEASED := "inventory.released"
  const PAYMENT_PROCESSED := "payment.processed"

  /** What one service declares: its queue, the exchange it is fed from, and its binding keys. */
  datatype Service = Service(queue: string, exchange: string, keys: seq<string>, retryKeys: seq<string>)
  {
    function Dlq(): string { queue + ".dlq" }

    function RetryQueue(): string { queue + ".retry" }
  }

  const ORDER := Service("order.events", EVENTS, ["#"], [INVENTORY_RESERVED, INVENTORY_RELEASED, PAYMENT_PROCESSED])
  const INVENTORY := Service("inventory.commands", COMMANDS, [INVENTORY_RESERVE, INVENTORY_RELEASE],
                             [INVENTORY_RESERVE, INVENTORY_RELEASE])
  const PAYMENT := Service("payment.commands", COMMANDS, [PAYMENT_PROCESS, PAYMENT_REFUND],
                           [PAYMENT_PROCESS, PAYMENT_REFUND])

  // ---------------------------------------------------------------- routing

  function Words(s: string): (words: seq<string>)
    ensures |words| > 0
  {
    if s == "" then [""]
    else
      var rest := Words(s[1..]);
      if s[0] == '.' then [""] + rest else [[s[0]] + rest[0]] + rest[1..]
  }

  /** Topic patterns: `*` stands for one word, `#` for any number of words. */
  predicate TopicMatches(pattern: seq<string>, words: seq<string>)
    decreases |pattern| + |words|
  {
    if pattern == [] then words == []
    else if pattern[0] == "#" then
      TopicMatches(pattern[1..], words) || (words != [] && TopicMatches(pattern, words[1..]))
    else words != [] && (pattern[0] == "*" || pattern[0] == words[0]) && TopicMatches(pattern[1..], words[1..])
  }

  // ---------------------------------------------------------------- what patterns mean

  function Dotted(words: seq<string>): string
    requires words != []
  {
    if |words| == 1 then words[0] else words[0] + "." + Dotted(words[1..])
  }

  /** A key is cut at every dot and nowhere else. */
  lemma {:induction false} WordsAreDotted(s: string)
    ensures Dotted(Words(s)) == s && forall i | 0 <= i < |Words(s)| :: '.' !in Words(s)[i]
  {
    if s != "" {
      var rest := Words(s[1..]);
      WordsAreDotted(s[1..]);
      if s[0] == '.' {
        assert Words(s)[1..] == rest;
      } else {
        assert Words(s)[1..] == rest[1..];
      }
      assert s == [s[0]] + s[1..];
    }
  }

  /** A pattern without wildcards matches itself alone, `*` any one word in its place, and `#` everything. */
  lemma {:induction false} PatternMeaning(pattern: seq<string>, words: seq<string>)
    ensures (forall i | 0 <= i < |pattern| :: pattern[i] != "#") ==>
              (TopicMatches(pattern, words) <==>
                 |words| == |pattern| && forall i | 0 <= i < |words| :: pattern[i] == "*" || pattern[i] == words[i])
    ensures pattern == ["#"] ==> TopicMatches(pattern, words)
    decreases |pattern| + |words|
  {
    if pattern != [] && pattern[0] != "#" && words != [] {
      PatternMeaning(pattern[1..], words[1..]);
    } else if pattern == ["#"] {
      if words == [] {
        assert TopicMatches(pattern[1..], []);
      } else {
        PatternMeaning(pattern, words[1..]);
      }
    }
  }

  predicate KeyMatches(kind: Kind, pattern: string, key: string) {
    match kind
    case Direct => pattern == key
    case Topic => TopicMatches(Words(pattern), Words(key))
  }

  predicate Delivers(t: Topology, exchange: string, key: string, queue: string) {
    if exchange == "" then queue == key
    else exchange in t.exchanges
         && exists b | b in t.bindings :: b.exchange == exchange && b.queue == queue && KeyMatches(t.exchanges[exchange], b.key, key)
  }

  /** The queues that receive a message; the default exchange reaches the queue named like the key. */
  function Route(t: Topology, exchange: string, key: string): set<string> {
    set q | q in t.queues && Delivers(t, exchange, key, q)
  }

  // ---------------------------------------------------------------- declarations

  function MainArgs(s: Service): QueueArgs { QueueArgs(Some(""), Some(s.Dlq()), None) }

  function DlqArgs(): QueueArgs { QueueArgs(None, None, None) }

  function RetryArgs(s: Service): QueueArgs { QueueArgs(Some(s.exchange), None, Some(RETRY_TTL_MILLIS)) }

  /** What a service's start-up declares, all of it. */
  function Part(s: Service): Topology {
    Topology(
      map[COMMANDS := Direct, EVENTS := Topic, RETRY_EXCHANGE := Direct],
      map[s.queue := MainArgs(s), s.Dlq() := DlqArgs(), s.RetryQueue() := RetryArgs(s)],
      (set k | k in s.keys :: Binding(s.queue, k, s.exchange))
      + (set k | k in s.retryKeys :: Binding(s.RetryQueue(), k, RETRY_EXCHANGE)))
  }

  predicate Compatible(t: Topology, part: Topology) {
    && (forall e | e in t.exchanges && e in part.exchanges :: t.exchanges[e] == part.exchanges[e])
    && (forall q | q in t.queues && q in part.queues :: t.queues[q] == part.queues[q])
  }

  function Merge(t: Topology, part: Topology): Topology {
    Topology(t.exchanges + part.exchanges, t.queues + part.queues, t.bindings + part.bindings)
  }

  function Full(): Topology {
    Merge(Merge(Part(ORDER), Part(INVENTORY)), Part(PAYMENT))
  }

  predicate Agrees<V(==)>(m: map<string, V>, k: string, v: V) { k in m ==> m[k] == v }

  lemma ThreeAdded<V>(m: map<string, V>, a: string, x: V, b: string, y: V, c: string, z: V)
    requires a != b && b != c && a != c
    ensures m[a := x][b := y][c := z] == m + map[a := x, b := y, c := z]
    ensures (forall k | k in m && k in map[a := x, b := y, c := z] :: m[k] == map[a := x, b := y, c := z][k])
            <==> (Agrees(m, a, x) && Agrees(m, b, y) && Agrees(m, c, z))
  {
    var added := map[a := x, b := y, c := z];
    assert added[a] == x && added[b] == y && added[c] == z;
  }

  /** The names one service declares are three different ones. */
  lemma NamesDiffer(s: Service)
    ensures COMMANDS != EVENTS && EVENTS != RETRY_EXCHANGE && COMMANDS != RETRY_EXCHANGE
    ensures s.queue != s.Dlq() && s.Dlq() != s.RetryQueue() && s.queue != s.RetryQueue()
  {
    assert |s.queue| < |s.Dlq()| < |s.RetryQueue()|;
  }

  lemma PartAdded(t: Topology, s: Service)
    ensures Merge(t, Part(s)).exchanges == t.exchanges[COMMANDS := Direct][EVENTS := Topic][RETRY_EXCHANGE := Direct]
    ensures Merge(t, Part(s)).queues
         == t.queues[s.queue := MainArgs(s)][s.Dlq() := DlqArgs()][s.RetryQueue() := RetryArgs(s)]
    ensures Compatible(t, Part(s)) <==>
      (&& Agrees(t.exchanges, COMMANDS, Direct) && Agrees(t.exchanges, EVENTS, Topic)
       && Agrees(t.exchanges, RETRY_EXCHANGE, Direct) && Agrees(t.queues, s.queue, MainArgs(s))
       && Agrees(t.queues, s.Dlq(), DlqArgs()) && Agrees(t.queues, s.RetryQueue(), RetryArgs(s)))
  {
    NamesDiffer(s);
    ThreeAdded(t.exchanges, COMMANDS, Direct, EVENTS, Topic, RETRY_EXCHANGE, Direct);
    ThreeAdded(t.queues, s.queue, MainArgs(s), s.Dlq(), DlqArgs(), s.RetryQueue(), RetryArgs(s));
  }

  class Broker {
    var exchanges: map<string, Kind>
    var queues: map<string, QueueArgs>
    var bindings: set<Binding>

    constructor ()
      ensures View() == Topology(map[], map[], {})
    {
      exchanges, queues, bindings := map[], map[], {};
    }

    function View(): Topology
      reads this
    {
      Topology(exchanges, queues, bindings)
    }

    /** Declaring again is harmless; declaring differently is refused. */
    method ExchangeDeclare(name: string, kind: Kind) returns (ok: bool)
      modifies this`exchanges
      ensures ok == Agrees(old(exchanges), name, kind)
      ensures exchanges == if ok then old(exchanges)[name := kind] else old(exchanges)
    {
      ok := name in exchanges ==> exchanges[name] == kind;
      if ok {
        exchanges := exchanges[name := kind];
      }
    }

    method QueueDeclare(name: string, args: QueueArgs) returns (ok: bool)
      modifies this`queues
      ensures ok == Agrees(old(queues), name, args)
      ensures queues == if ok then old(queues)[name := args] else old(queues)
    {
      ok := name in queues ==> queues[name] == args;
      if ok {
        queues := queues[name := args];
      }
    }

    method QueueBind(queue: string, key: string, exchange: string) returns (ok: bool)
      modifies this`bindings
      ensures ok == (queue in queues && exchange in exchanges)
      ensures bindings == if ok then old(bindings) + {Binding(queue, key, exchange)} else old(bindings)
    {
      ok := queue in queues && exchange in exchanges;
      if ok {
        bindings := bindings + {Binding(queue, key, exchange)};
      }
    }

    method BindAll(queue: string, keys: seq<string>, exchange: string) returns (ok: bool)
      requires queue in queues && exchange in exchanges
      modifies this`bindings
      ensures ok && bindings == old(bindings) + set k | k in keys :: Binding(queue, k, exchange)
    {
      for i := 0 to |keys|
        invariant bindings == old(bindings) + set k | k in keys[..i] :: Binding(queue, k, exchange)
      {
        ok := QueueBind(queue, keys[i], exchange);
        assert keys[..i + 1] == keys[..i] + [keys[i]];
      }
      assert keys[..|keys|] == keys;
      ok := true;
    }

    method DeclareExchanges() returns (ok: bool)
      modifies this`exchanges
      ensures ok <==> Agrees(old(exchanges), COMMANDS, Direct) && Agrees(old(exchanges), EVENTS, Topic)
      ensures ok ==> exchanges == old(exchanges)[COMMANDS := Direct][EVENTS := Topic]
    {
      var declared := [(COMMANDS, Direct), (EVENTS, Topic)];
      for i := 0 to |declared|
        invariant i >= 1 ==> Agrees(old(exchanges), COMMANDS, Direct)
        invariant i >= 2 ==> Agrees(old(exchanges), EVENTS, Topic)
        invariant exchanges == if i == 0 then old(exchanges)
                               else if i == 1 then old(exchanges)[COMMANDS := Direct]
                               else old(exchanges)[COMMANDS := Direct][EVENTS := Topic]
      {
        ok := ExchangeDeclare(declared[i].0, declared[i].1);
        if !ok {
          return;
        }
      }
      ok := true;
    }

    /** The queue and its dead-letter queue. */
    method DeclareQueues(s: Service) returns (ok: bool)
      modifies this`queues
      ensures ok <==> Agrees(old(queues), s.queue, MainArgs(s)) && Agrees(old(queues), s.Dlq(), DlqArgs())
      ensures ok ==> queues == old(queues)[s.queue := MainArgs(s)][s.Dlq() := DlqArgs()]
    {
      NamesDiffer(s);
      ok := QueueDeclare(s.queue, MainArgs(s));
      if ok {
        ok := QueueDeclare(s.Dlq(), DlqArgs());
      }
    }

    /** Start-up of one service: succeeds exactly when nothing was declared differently before, and then
        adds the service's part and nothing else. */
    method Setup(s: Service) returns (ok: bool)
      requires s.exchange == COMMANDS || s.exchange == EVENTS
      modifies this
      ensures ok <==> Compatible(old(View()), Part(s))
      ensures ok ==> View() == Merge(old(View()), Part(s))
    {
      NamesDiffer(s);
      PartAdded(View(), s);
      ok := DeclareExchanges();
      if !ok {
        return;
      }
      ok := DeclareQueues(s);
      if !ok {
        return;
      }
      ok := BindAll(s.queue, s.keys, s.exchange);
      ok := ExchangeDeclare(RETRY_EXCHANGE, Direct);
      if !ok {
        return;
      }
      ok := QueueDeclare(s.RetryQueue(), RetryArgs(s));
      if !ok {
        return;
      }
      ok := BindAll(s.RetryQueue(), s.retryKeys, RETRY_EXCHANGE);
    }
  }
}
