/** The consumer that all three services share: what becomes of a delivery after its handler returned. */
module Consumer {
  import opened AmqpRetry
  import opened BrokerTopology
  import opened Network

  datatype Copy = Copy(key: string, id: string, body: string, headers: Headers)

  /** A copy of a message in a queue, waiting or delivered and not yet acknowledged. */
  datatype Placed = Placed(queue: string, copy: Copy)

  datatype HandlerResult = Success | Failure(error: Error) | Panic

  // ---------------------------------------------------------------- what the broker does

  /** A publish reaches every queue its key routes to; if there is none the broker drops the message and
      still confirms it. */
  function Published(t: Topology, exchange: string, key: string, c: Copy): multiset<Placed> {
    multiset(set q | q in Route(t, exchange, key) :: Placed(q, c.(key := key)))
  }

  /** A rejected or expired copy goes to the queue's dead-letter exchange, under the queue's dead-letter
      key if it has one and under its own key otherwise. */
  function DeadLettered(t: Topology, queue: string, c: Copy): multiset<Placed> {
    if queue !in t.queues || t.queues[queue].deadLetterExchange.None? then multiset{}
    else
      var args := t.queues[queue];
      Published(t, args.deadLetterExchange.value,
                if args.deadLetterKey.Some? then args.deadLetterKey.value else c.key, c)
  }

  // ---------------------------------------------------------------- what the consumer decides

  function WithNextCount(c: Copy): Copy {
    c.(headers := c.headers[HEADER_RETRY_COUNT := Int32(ToInt32(RetryCount(c.headers) + 1))])
  }

  /** After a republish to the retry exchange: acknowledged only if it was confirmed. */
  function Retried(t: Topology, queue: string, c: Copy, attempt: Attempt): multiset<Placed> {
    match attempt
    case Acked => Published(t, RETRY_EXCHANGE, c.key, WithNextCount(c))
    case AckLost => Published(t, RETRY_EXCHANGE, c.key, WithNextCount(c)) + multiset{Placed(queue, c)}
    case NotSent => multiset{Placed(queue, c)}
  }

  /** After a republish to the dead-letter queue: rejected to the broker unless it was confirmed. */
  function Buried(t: Topology, queue: string, c: Copy, attempt: Attempt): multiset<Placed> {
    match attempt
    case Acked => Published(t, "", queue + ".dlq", c)
    case AckLost => Published(t, "", queue + ".dlq", c) + DeadLettered(t, queue, c)
    case NotSent => DeadLettered(t, queue, c)
  }

  /** The copies that stand in for a delivery once dispatchMsg is through with it. */
  function Outcome(t: Topology, queue: string, c: Copy, maxRetries: int, result: HandlerResult, attempt: Attempt):
    multiset<Placed>
  {
    match result
    case Success => multiset{}
    case Panic => DeadLettered(t, queue, c)
    case Failure(error) =>
      match Decide(SomeError(error), RetryCount(c.headers), maxRetries)
      case Retry => Retried(t, queue, c, attempt)
      case DeadLetter => Buried(t, queue, c, attempt)
  }

  /** A failure that is not permanent and has met fewer retries than allowed. */
  predicate TriesAgain(c: Copy, maxRetries: int, result: HandlerResult) {
    result.Failure? && !IsPermanentError(result.error) && RetryCount(c.headers) < maxRetries
  }

  /** A success takes the delivery away and leaves nothing in its place.  A panic rejects it.  A failure that may be
      tried again goes to the retry exchange under its own key, with its count raised; it stays if that is not
      confirmed.  Any other failure goes to the dead-letter queue by name; it is rejected if that is not confirmed. */
  predicate Dispatched(t: Topology, before: multiset<Placed>, after: multiset<Placed>, queue: string, c: Copy,
                       maxRetries: int, result: HandlerResult, attempt: Attempt)
  {
    var gone := before - multiset{Placed(queue, c)};
    var again := Published(t, "saga.retry", c.key, WithNextCount(c));
    var dead := Published(t, "", queue + ".dlq", c);
    var rejected := DeadLettered(t, queue, c);
    if result.Success? then after == gone
    else if result.Panic? then after == gone + rejected
    else if TriesAgain(c, maxRetries, result) then
      after == match attempt case Acked => gone + again case AckLost => before + again case NotSent => before
    else
      after == match attempt case Acked => gone + dead case AckLost => gone + dead + rejected case NotSent => gone + rejected
  }

  lemma Settled(t: Topology, before: multiset<Placed>, after: multiset<Placed>, queue: string, c: Copy,
                maxRetries: int, result: HandlerResult, attempt: Attempt)
    requires Placed(queue, c) in before
    requires after == before - multiset{Placed(queue, c)} + Outcome(t, queue, c, maxRetries, result, attempt)
    ensures Dispatched(t, before, after, queue, c, maxRetries, result, attempt)
  {
    AddThenTake(before, Placed(queue, c), Published(t, RETRY_EXCHANGE, c.key, WithNextCount(c)), multiset{});
  }

  /** An amqp.Table: a map shared by reference. */
  class Table {
    var entries: Headers

    constructor ()
      ensures entries == map[]
    {
      entries := map[];
    }
  }

  class Delivery {
    const key: string
    const id: string
    const body: string
    const headers: Table?

    constructor (routingKey: string, messageId: string, content: string, table: Table?)
      ensures key == routingKey && id == messageId && body == content && headers == table
    {
      key, id, body, headers := routingKey, messageId, content, table;
    }

    function Value(): Copy
      reads headers
    {
      Copy(key, id, body, if headers == null then map[] else headers.entries)
    }
  }

  /** A fresh table with the same entries; empty for a nil table. */
  method CloneHeaders(h: Table?) returns (out: Table)
    ensures fresh(out)
    ensures out.entries == if h == null then map[] else h.entries
  {
    out := new Table();
    if h != null {
      var rest := h.entries.Keys;
      while rest != {}
        invariant fresh(out) && rest <= h.entries.Keys
        invariant out.entries == map k | k in h.entries && k !in rest :: h.entries[k]
        decreases rest
      {
        var k :| k in rest;
        out.entries := out.entries[k := h.entries[k]];
        rest := rest - {k};
      }
    }
  }

  lemma AddThenTake(s: multiset<Placed>, x: Placed, added: multiset<Placed>, more: multiset<Placed>)
    requires x in s
    ensures s + added - multiset{x} + more == s - multiset{x} + (added + more)
    ensures s + multiset{} == s
    ensures s + added - multiset{x} == s - multiset{x} + added
    ensures s - multiset{x} + multiset{x} == s
    ensures s + added == s - multiset{x} + (added + multiset{x})
  {
  }

  lemma BuriedCorrectly(t: Topology, before: multiset<Placed>, after: multiset<Placed>, queue: string, c: Copy, attempt: Attempt)
    requires Placed(queue, c) in before
    requires var sent := Published(t, "", queue + ".dlq", c);
             after == (if attempt == NotSent then before else before + sent) - multiset{Placed(queue, c)}
                      + (if attempt == Acked then multiset{} else DeadLettered(t, queue, c))
    ensures after == before - multiset{Placed(queue, c)} + Buried(t, queue, c, attempt)
  {
    AddThenTake(before, Placed(queue, c), Published(t, "", queue + ".dlq", c), DeadLettered(t, queue, c));
  }

  class Channel {
    const topology: Topology
    var held: multiset<Placed>

    constructor (t: Topology)
      ensures topology == t && held == multiset{}
    {
      topology, held := t, multiset{};
    }

    method PublishRaw(exchange: string, key: string, id: string, body: string, headers: Headers, attempt: Attempt)
      returns (ok: bool)
      modifies this
      ensures ok == (attempt == Acked)
      ensures held == old(held)
                    + if attempt == NotSent then multiset{} else Published(topology, exchange, key, Copy(key, id, body, headers))
    {
      if attempt != NotSent {
        held := held + Published(topology, exchange, key, Copy(key, id, body, headers));
      }
      ok := attempt == Acked;
    }

    method Ack(queue: string, c: Copy)
      modifies this
      ensures held == old(held) - multiset{Placed(queue, c)}
    {
      held := held - multiset{Placed(queue, c)};
    }

    method Nack(queue: string, c: Copy, requeue: bool)
      modifies this
      ensures held == if requeue then old(held) else old(held) - multiset{Placed(queue, c)} + DeadLettered(topology, queue, c)
    {
      if !requeue {
        held := held - multiset{Placed(queue, c)} + DeadLettered(topology, queue, c);
      }
    }

    /** ActionRetry. */
    method ScheduleRetry(msg: Delivery, queue: string, attempt: Attempt)
      requires Placed(queue, msg.Value()) in held
      modifies this
      ensures held == old(held) - multiset{Placed(queue, msg.Value())} + Retried(topology, queue, msg.Value(), attempt)
    {
      var headers := CloneHeaders(msg.headers);
      headers.entries := headers.entries[HEADER_RETRY_COUNT := Int32(ToInt32(RetryCount(msg.Value().headers) + 1))];
      ghost var sent := Published(topology, RETRY_EXCHANGE, msg.key, WithNextCount(msg.Value()));
      assert Copy(msg.key, msg.id, msg.body, headers.entries) == WithNextCount(msg.Value());
      AddThenTake(held, Placed(queue, msg.Value()), sent, DeadLettered(topology, queue, msg.Value()));
      var ok := PublishRaw(RETRY_EXCHANGE, msg.key, msg.id, msg.body, headers.entries, attempt);
      if !ok {
        Nack(queue, msg.Value(), true);
        return;
      }
      Ack(queue, msg.Value());
    }

    /** ActionDeadLetter. */
    method SendToDlq(msg: Delivery, queue: string, attempt: Attempt)
      requires Placed(queue, msg.Value()) in held
      modifies this
      ensures held == old(held) - multiset{Placed(queue, msg.Value())} + Buried(topology, queue, msg.Value(), attempt)
    {
      ghost var before, sent := held, Published(topology, "", queue + ".dlq", msg.Value());
      assert Copy(msg.key, msg.id, msg.body, msg.Value().headers) == msg.Value();
      var ok := PublishRaw("", queue + ".dlq", msg.id, msg.body, msg.Value().headers, attempt);
      assert held == if attempt == NotSent then before else before + sent;
      if !ok {
        Nack(queue, msg.Value(), false);
      } else {
        Ack(queue, msg.Value());
      }
      BuriedCorrectly(topology, before, held, queue, msg.Value(), attempt);
    }

    /** Acknowledges, retries or dead-letters; the delivery's own headers are never touched. */
    method DispatchMsg(msg: Delivery, queue: string, maxRetries: int, result: HandlerResult, attempt: Attempt)
      requires Placed(queue, msg.Value()) in held
      modifies this
      ensures held == old(held) - multiset{Placed(queue, msg.Value())}
                    + Outcome(topology, queue, msg.Value(), maxRetries, result, attempt)
      ensures Dispatched(topology, old(held), held, queue, msg.Value(), maxRetries, result, attempt)
    {
      ghost var before := held;
      match result {
        case Panic =>
          Nack(queue, msg.Value(), false);
        case Success =>
          Ack(queue, msg.Value());
        case Failure(error) =>
          match Decide(SomeError(error), RetryCount(msg.Value().headers), maxRetries) {
            case Retry => ScheduleRetry(msg, queue, attempt);
            case DeadLetter => SendToDlq(msg, queue, attempt);
          }
      }
      Settled(topology, before, held, queue, msg.Value(), maxRetries, result, attempt);
    }

    /** A copy has waited out the time limit of its queue. */
    method Expire(queue: string, c: Copy)
      requires Placed(queue, c) in held
      modifies this
      ensures held == old(held) - multiset{Placed(queue, c)} + DeadLettered(topology, queue, c)
    {
      held := held - multiset{Placed(queue, c)} + DeadLettered(topology, queue, c);
    }
  }
}
