/** The retry loop over the full topology: no message vanishes, and a message that always fails ends in
    its own dead-letter queue. */
module DeadLetters {
  import opened AmqpRetry
  import opened BrokerTopology
  import opened Routing
  import opened Network
  import opened Consumer

  // ---------------------------------------------------------------- outcomes over the full topology

  function Only(queue: string, c: Copy): multiset<Placed> { multiset{Placed(queue, c)} }

  lemma PublishedOnly(exchange: string, key: string, c: Copy, queue: string)
    requires Route(Full(), exchange, key) == {queue}
    ensures Published(Full(), exchange, key, c) == Only(queue, c.(key := key))
  {
    assert (set q | q in Route(Full(), exchange, key) :: Placed(q, c.(key := key))) == {Placed(queue, c.(key := key))};
  }

  /** A rejected delivery lands in the dead-letter queue of its own queue, under that queue's name. */
  lemma RejectedOnly(s: Service, c: Copy)
    requires IsService(s)
    ensures DeadLettered(Full(), s.queue, c) == Only(s.Dlq(), c.(key := s.Dlq()))
    ensures Published(Full(), "", s.Dlq(), c) == Only(s.Dlq(), c.(key := s.Dlq()))
  {
    ServiceQueues(s);
    DlqRoute(s);
    PublishedOnly("", s.Dlq(), c, s.Dlq());
  }

  lemma RetriedOnly(s: Service, c: Copy)
    requires IsService(s) && c.key in s.retryKeys
    ensures Published(Full(), RETRY_EXCHANGE, c.key, WithNextCount(c)) == Only(s.RetryQueue(), WithNextCount(c))
  {
    RetryRoute(s, c.key);
    PublishedOnly(RETRY_EXCHANGE, c.key, WithNextCount(c), s.RetryQueue());
  }

  /** The retry routing closes: what waits in a retry queue comes back, key, id, body and headers intact,
      to exactly the queue it came from. */
  lemma ExpiryReturns(s: Service, c: Copy)
    requires IsService(s) && c.key in s.retryKeys
    ensures DeadLettered(Full(), s.RetryQueue(), c) == Only(s.queue, c)
  {
    ServiceQueues(s);
    MainRoute(s, c.key);
    PublishedOnly(s.exchange, c.key, c, s.queue);
  }

  lemma {:induction false} RetryRoundTrip(s: Service, c: Copy)
    requires IsService(s) && HandledKey(s, c.key)
    ensures Published(Full(), RETRY_EXCHANGE, c.key, WithNextCount(c)) == Only(s.RetryQueue(), WithNextCount(c))
    ensures DeadLettered(Full(), s.RetryQueue(), WithNextCount(c)) == Only(s.queue, WithNextCount(c))
  {
    HandledCanRetry(s, c.key);
    RetriedOnly(s, c);
    ExpiryReturns(s, WithNextCount(c));
  }

  // ---------------------------------------------------------------- runs of the retry loop

  datatype Step =
    | Handle(s: Service, copy: Copy, result: HandlerResult, attempt: Attempt)
    | Expire(s: Service, copy: Copy)

  /** A handler fails only on keys it knows. */
  predicate Enabled(held: multiset<Placed>, step: Step) {
    true == (
      && IsService(step.s)
      && match step
         case Handle(s, c, result, _) => Placed(s.queue, c) in held && (result.Failure? ==> HandledKey(s, c.key))
         case Expire(s, c) => Placed(s.RetryQueue(), c) in held)
  }

  function Apply(held: multiset<Placed>, step: Step, maxRetries: int): multiset<Placed> {
    match step
    case Handle(s, c, result, attempt) =>
      held - multiset{Placed(s.queue, c)} + Outcome(Full(), s.queue, c, maxRetries, result, attempt)
    case Expire(s, c) => held - multiset{Placed(s.RetryQueue(), c)} + DeadLettered(Full(), s.RetryQueue(), c)
  }

  /** p is a copy of message (id, body), at home with service s: in its queue or retry queue under its
      own key, or in its dead-letter queue. */
  predicate CopyAtHome(p: Placed, s: Service, key: string, id: string, body: string) {
    && p.copy.id == id && p.copy.body == body
    && (((p.queue == s.queue || p.queue == s.RetryQueue()) && p.copy.key == key) || p.queue == s.Dlq())
  }

  predicate AtHome(held: multiset<Placed>, s: Service, key: string, id: string, body: string) {
    exists p | p in held :: CopyAtHome(p, s, key, id, body)
  }

  predicate Succeeds(step: Step, s: Service, key: string, id: string, body: string) {
    step.Handle? && step.result.Success? && step.s == s && step.copy.key == key && step.copy.id == id && step.copy.body == body
  }

  /** A delivery that is not handled with success is replaced by at least one copy at the same home. */
  lemma OutcomeReplaces(s: Service, c: Copy, maxRetries: int, result: HandlerResult, attempt: Attempt) returns (p: Placed)
    requires IsService(s) && !result.Success? && (result.Failure? ==> HandledKey(s, c.key))
    ensures CopyAtHome(p, s, c.key, c.id, c.body)
    ensures p in Outcome(Full(), s.queue, c, maxRetries, result, attempt)
  {
    if result.Failure? && Decide(SomeError(result.error), RetryCount(c.headers), maxRetries) == Retry {
      p := RetryReplaces(s, c, attempt);
    } else {
      RejectedOnly(s, c);
      p := Placed(s.Dlq(), c.(key := s.Dlq()));
      assert p in Buried(Full(), s.queue, c, attempt);
    }
  }

  lemma RetryReplaces(s: Service, c: Copy, attempt: Attempt) returns (p: Placed)
    requires IsService(s) && HandledKey(s, c.key)
    ensures CopyAtHome(p, s, c.key, c.id, c.body) && p in Retried(Full(), s.queue, c, attempt)
  {
    RetryRoundTrip(s, c);
    p := if attempt == NotSent then Placed(s.queue, c) else Placed(s.RetryQueue(), WithNextCount(c));
  }

  lemma QueueNames(s: Service, s': Service)
    requires IsService(s) && IsService(s')
    ensures s.queue != s'.RetryQueue() && s.queue != s'.Dlq() && s.RetryQueue() != s'.Dlq()
    ensures s != s' ==> s.queue != s'.queue && s.RetryQueue() != s'.RetryQueue() && s.Dlq() != s'.Dlq()
  {
    NamesDiffer(s);
    if s != s' {
      QueuesDiffer(s, s');
      assert s.queue in Part(s).queues && s.RetryQueue() in Part(s).queues && s.Dlq() in Part(s).queues;
      assert s'.queue in Part(s').queues && s'.RetryQueue() in Part(s').queues && s'.Dlq() in Part(s').queues;
    }
  }

  lemma TakenIsReplaced(held: multiset<Placed>, step: Step, maxRetries: int)
    requires IsService(step.s) && HandledKey(step.s, step.copy.key) && (step.Handle? ==> !step.result.Success?)
    ensures AtHome(Apply(held, step, maxRetries), step.s, step.copy.key, step.copy.id, step.copy.body)
  {
    if step.Expire? {
      HandledCanRetry(step.s, step.copy.key);
      ExpiryReturns(step.s, step.copy);
      InSum(held - multiset{Placed(step.s.RetryQueue(), step.copy)}, Only(step.s.queue, step.copy),
            Placed(step.s.queue, step.copy));
    } else {
      var r := OutcomeReplaces(step.s, step.copy, maxRetries, step.result, step.attempt);
      InSum(held - multiset{Placed(step.s.queue, step.copy)},
            Outcome(Full(), step.s.queue, step.copy, maxRetries, step.result, step.attempt), r);
    }
  }

  lemma InSum(a: multiset<Placed>, b: multiset<Placed>, p: Placed)
    requires p in b
    ensures p in a + b
  {
  }

  /** One step: a message stays at home unless it is handled with success. */
  lemma StepKeepsMessage(held: multiset<Placed>, step: Step, maxRetries: int, s: Service, key: string, id: string, body: string)
    requires IsService(s) && HandledKey(s, key) && Enabled(held, step)
    requires AtHome(held, s, key, id, body) && !Succeeds(step, s, key, id, body)
    ensures AtHome(Apply(held, step, maxRetries), s, key, id, body)
  {
    var p :| p in held && CopyAtHome(p, s, key, id, body);
    var taken := Placed(if step.Handle? then step.s.queue else step.s.RetryQueue(), step.copy);
    if p != taken {
      assert p in Apply(held, step, maxRetries);
    } else {
      QueueNames(step.s, s);
      QueueNames(s, step.s);
      TakenIsReplaced(held, step, maxRetries);
    }
  }

  function Run(held: multiset<Placed>, steps: seq<Step>, maxRetries: int): multiset<Placed> {
    if steps == [] then held else Apply(Run(held, steps[..|steps| - 1], maxRetries), steps[|steps| - 1], maxRetries)
  }

  predicate RunEnabled(held: multiset<Placed>, steps: seq<Step>, maxRetries: int) {
    forall i | 0 <= i < |steps| :: Enabled(Run(held, steps[..i], maxRetries), steps[i])
  }

  lemma EnabledBefore(held: multiset<Placed>, steps: seq<Step>, maxRetries: int, n: nat)
    requires RunEnabled(held, steps, maxRetries) && n <= |steps|
    ensures RunEnabled(held, steps[..n], maxRetries)
  {
    forall i | 0 <= i < n ensures Enabled(Run(held, steps[..n][..i], maxRetries), steps[..n][i]) {
      assert steps[..n][..i] == steps[..i];
    }
  }

  /** No message vanishes: whatever fails, is lost, panics or expires, and in whatever order, a message
      that was at home is at home at the end of every run in which its handler never succeeded. */
  lemma {:induction false} NoMessageVanishes(held: multiset<Placed>, steps: seq<Step>, maxRetries: int, s: Service,
                                             key: string, id: string, body: string)
    requires IsService(s) && HandledKey(s, key) && RunEnabled(held, steps, maxRetries)
    requires AtHome(held, s, key, id, body)
    requires forall i | 0 <= i < |steps| :: !Succeeds(steps[i], s, key, id, body)
    ensures AtHome(Run(held, steps, maxRetries), s, key, id, body)
    decreases |steps|
  {
    if steps != [] {
      var before := steps[..|steps| - 1];
      EnabledBefore(held, steps, maxRetries, |steps| - 1);
      NoMessageVanishes(held, before, maxRetries, s, key, id, body);
      StepKeepsMessage(Run(held, before, maxRetries), steps[|steps| - 1], maxRetries, s, key, id, body);
    }
  }

  // ---------------------------------------------------------------- a message that always fails

  /** Where the only copy of a message goes next when its handler fails and republishes are confirmed. */
  function Hop(s: Service, p: Placed, maxRetries: int, result: HandlerResult): Placed {
    if p.queue == s.queue then
      if result.Panic? || !result.Failure? || Decide(SomeError(result.error), RetryCount(p.copy.headers), maxRetries) == DeadLetter
      then Placed(s.Dlq(), p.copy.(key := s.Dlq()))
      else Placed(s.RetryQueue(), WithNextCount(p.copy))
    else if p.queue == s.RetryQueue() then Placed(s.queue, p.copy)
    else p
  }

  /** Hop is the real thing: the step of the loop replaces the one copy by the next one. */
  lemma {:induction false} HopIsStep(s: Service, p: Placed, maxRetries: int, result: HandlerResult)
    requires IsService(s) && HandledKey(s, p.copy.key) && !result.Success?
    requires p.queue == s.queue || p.queue == s.RetryQueue()
    ensures var step := if p.queue == s.queue then Handle(s, p.copy, result, Acked) else Expire(s, p.copy);
            Enabled(multiset{p}, step) && Apply(multiset{p}, step, maxRetries) == multiset{Hop(s, p, maxRetries, result)}
  {
    QueueNames(s, s);
    HandledCanRetry(s, p.copy.key);
    RejectedOnly(s, p.copy);
    RetriedOnly(s, p.copy);
    ExpiryReturns(s, p.copy);
    assert multiset{p} - multiset{p} == multiset{};
  }

  function Travel(s: Service, p: Placed, maxRetries: int, results: nat -> HandlerResult, n: nat): Placed {
    if n == 0 then p else Hop(s, Travel(s, p, maxRetries, results, n - 1), maxRetries, results(n - 1))
  }

  /** How often the handler runs in the first n hops. */
  function HandledCount(s: Service, p: Placed, maxRetries: int, results: nat -> HandlerResult, n: nat): nat {
    if n == 0 then 0
    else HandledCount(s, p, maxRetries, results, n - 1)
         + if Travel(s, p, maxRetries, results, n - 1).queue == s.queue then 1 else 0
  }

  predicate AllFail(results: nat -> HandlerResult, n: nat) {
    forall i | 0 <= i < n :: !results(i).Success?
  }

  function Budget(c: Copy, maxRetries: int): nat {
    if RetryCount(c.headers) >= maxRetries then 0 else maxRetries - RetryCount(c.headers)
  }

  /** What is left to do: two hops per remaining retry, and the last one. */
  function Measure(s: Service, p: Placed, maxRetries: int): nat {
    if p.queue == s.queue then 2 * Budget(p.copy, maxRetries) + 1
    else if p.queue == s.RetryQueue() then 2 * Budget(p.copy, maxRetries) + 2
    else 0
  }

  /** The part of a message that no retry changes: id, body, other headers and, until it is dead, the key. */
  predicate SameMessage(s: Service, p: Placed, c: Copy) {
    true == (
      && p.copy.id == c.id && p.copy.body == c.body
      && p.copy.headers - {HEADER_RETRY_COUNT} == c.headers - {HEADER_RETRY_COUNT}
      && (p.queue == s.Dlq() || ((p.queue == s.queue || p.queue == s.RetryQueue()) && p.copy.key == c.key)))
  }

  lemma HopLowers(s: Service, p: Placed, maxRetries: int, result: HandlerResult, c: Copy)
    requires IsService(s) && maxRetries <= MAX_INT32 && !result.Success?
    requires p.queue == s.queue || p.queue == s.RetryQueue()
    requires SameMessage(s, p, c)
    ensures Measure(s, Hop(s, p, maxRetries, result), maxRetries) < Measure(s, p, maxRetries)
    ensures SameMessage(s, Hop(s, p, maxRetries, result), c)
    ensures p.queue == s.queue && Hop(s, p, maxRetries, result).queue == s.RetryQueue() ==>
              Budget(Hop(s, p, maxRetries, result).copy, maxRetries) < Budget(p.copy, maxRetries)
    ensures p.queue == s.RetryQueue() ==> Hop(s, p, maxRetries, result) == Placed(s.queue, p.copy)
  {
    QueueNames(s, s);
    if p.queue == s.queue && Hop(s, p, maxRetries, result).queue == s.RetryQueue() {
      CountRises(RetryCount(p.copy.headers), maxRetries);
      assert WithNextCount(p.copy).headers - {HEADER_RETRY_COUNT} == p.copy.headers - {HEADER_RETRY_COUNT};
    }
  }

  lemma HopKeepsMessage(s: Service, p: Placed, maxRetries: int, result: HandlerResult, c: Copy)
    requires IsService(s) && SameMessage(s, p, c)
    ensures SameMessage(s, Hop(s, p, maxRetries, result), c)
  {
    QueueNames(s, s);
    assert WithNextCount(p.copy).headers - {HEADER_RETRY_COUNT} == p.copy.headers - {HEADER_RETRY_COUNT};
  }

  /** Whatever the retry limit, the walk stays with the message. */
  lemma {:induction false} TravelKeepsMessage(s: Service, c: Copy, maxRetries: int, results: nat -> HandlerResult, n: nat)
    requires IsService(s)
    ensures SameMessage(s, Travel(s, Placed(s.queue, c), maxRetries, results, n), c)
  {
    if n > 0 {
      TravelKeepsMessage(s, c, maxRetries, results, n - 1);
      HopKeepsMessage(s, Travel(s, Placed(s.queue, c), maxRetries, results, n - 1), maxRetries, results(n - 1), c);
    }
  }

  /** Upper bound on how often the handler will still run. */
  function Runs(s: Service, p: Placed, maxRetries: int): nat {
    if p.queue == s.queue || p.queue == s.RetryQueue() then Budget(p.copy, maxRetries) + 1 else 0
  }

  lemma {:induction false} TravelBounds(s: Service, c: Copy, maxRetries: int, results: nat -> HandlerResult, n: nat)
    requires IsService(s) && HandledKey(s, c.key) && maxRetries <= MAX_INT32 && AllFail(results, n)
    ensures var p := Travel(s, Placed(s.queue, c), maxRetries, results, n);
            && SameMessage(s, p, c)
            && (p.queue == s.Dlq() || Measure(s, p, maxRetries) + n <= 2 * Budget(c, maxRetries) + 1)
            && HandledCount(s, Placed(s.queue, c), maxRetries, results, n) + Runs(s, p, maxRetries) <= Budget(c, maxRetries) + 1
  {
    QueueNames(s, s);
    if n > 0 {
      TravelBounds(s, c, maxRetries, results, n - 1);
      var p := Travel(s, Placed(s.queue, c), maxRetries, results, n - 1);
      if p.queue != s.Dlq() {
        HopLowers(s, p, maxRetries, results(n - 1), c);
      }
    }
  }

  /** A message whose handling always fails, one way or another, is handled at most once more than it has
      retries left and then lies in its own dead-letter queue, with the same id, body and other headers. */
  lemma AlwaysFailingIsBuried(s: Service, c: Copy, maxRetries: int, results: nat -> HandlerResult) returns (n: nat)
    requires IsService(s) && HandledKey(s, c.key) && maxRetries <= MAX_INT32
    requires forall i: nat :: !results(i).Success?
    ensures n <= 2 * Budget(c, maxRetries) + 1
    ensures var p := Travel(s, Placed(s.queue, c), maxRetries, results, n); p.queue == s.Dlq() && SameMessage(s, p, c)
    ensures HandledCount(s, Placed(s.queue, c), maxRetries, results, n) <= Budget(c, maxRetries) + 1
  {
    n := 2 * Budget(c, maxRetries) + 1;
    TravelBounds(s, c, maxRetries, results, n);
    QueueNames(s, s);
  }

  predicate Transient(r: HandlerResult) { r.Failure? && !IsPermanentError(r.error) }

  /** Transient failures use the budget up exactly: handled maxRetries + 1 times when the count starts at 0. */
  lemma {:induction false} TransientUsesBudget(s: Service, c: Copy, maxRetries: int, results: nat -> HandlerResult, n: nat)
    requires IsService(s) && MIN_INT32 <= RetryCount(c.headers) && maxRetries <= MAX_INT32
    requires forall i: nat :: Transient(results(i))
    ensures var p := Travel(s, Placed(s.queue, c), maxRetries, results, n);
            && (p.queue == s.queue || p.queue == s.RetryQueue() || p.queue == s.Dlq())
            && RetryCount(p.copy.headers) >= MIN_INT32
            && HandledCount(s, Placed(s.queue, c), maxRetries, results, n) + Runs(s, p, maxRetries) == Budget(c, maxRetries) + 1
  {
    QueueNames(s, s);
    if n > 0 {
      TransientUsesBudget(s, c, maxRetries, results, n - 1);
      TransientHop(s, Travel(s, Placed(s.queue, c), maxRetries, results, n - 1), maxRetries, results(n - 1));
    }
  }

  lemma TransientHop(s: Service, p: Placed, maxRetries: int, result: HandlerResult)
    requires IsService(s) && MIN_INT32 <= RetryCount(p.copy.headers) && maxRetries <= MAX_INT32 && Transient(result)
    requires p.queue == s.queue || p.queue == s.RetryQueue() || p.queue == s.Dlq()
    ensures var p' := Hop(s, p, maxRetries, result);
            && (p'.queue == s.queue || p'.queue == s.RetryQueue() || p'.queue == s.Dlq())
            && RetryCount(p'.copy.headers) >= MIN_INT32
            && Runs(s, p, maxRetries) == Runs(s, p', maxRetries) + (if p.queue == s.queue then 1 else 0)
  {
    QueueNames(s, s);
    if p.queue == s.queue && RetryCount(p.copy.headers) < maxRetries {
      CountRises(RetryCount(p.copy.headers), maxRetries);
      assert ToInt32(RetryCount(p.copy.headers) + 1) == RetryCount(p.copy.headers) + 1;
    }
  }

  /** With a limit that no 32-bit count can reach, transient failures go round for ever. */
  lemma {:induction false} NeverBuried(s: Service, c: Copy, maxRetries: int, results: nat -> HandlerResult, n: nat)
    requires IsService(s) && maxRetries > MAX_INT32 && RetryCount(c.headers) < maxRetries
    requires forall i: nat :: Transient(results(i))
    ensures var p := Travel(s, Placed(s.queue, c), maxRetries, results, n);
            (p.queue == s.queue || p.queue == s.RetryQueue()) && RetryCount(p.copy.headers) < maxRetries
  {
    QueueNames(s, s);
    if n > 0 {
      NeverBuried(s, c, maxRetries, results, n - 1);
    }
  }

  /** So a message that fails transiently for ever is buried if and only if the limit fits 32 bits, or is
      already reached. */
  lemma BuriedIff(s: Service, c: Copy, maxRetries: int, results: nat -> HandlerResult)
    requires IsService(s) && HandledKey(s, c.key)
    requires forall i: nat :: Transient(results(i))
    ensures (exists n: nat :: Travel(s, Placed(s.queue, c), maxRetries, results, n).queue == s.Dlq())
            <==> maxRetries <= MAX_INT32 || RetryCount(c.headers) >= maxRetries
  {
    QueueNames(s, s);
    if maxRetries <= MAX_INT32 {
      var n := AlwaysFailingIsBuried(s, c, maxRetries, results);
    } else if RetryCount(c.headers) >= maxRetries {
      assert Travel(s, Placed(s.queue, c), maxRetries, results, 0) == Placed(s.queue, c);
      assert Travel(s, Placed(s.queue, c), maxRetries, results, 1).queue == s.Dlq();
    } else {
      forall n: nat ensures Travel(s, Placed(s.queue, c), maxRetries, results, n).queue != s.Dlq() {
        NeverBuried(s, c, maxRetries, results, n);
      }
    }
  }

  // ---------------------------------------------------------------- every run is such a walk

  /** Handlers fail, and republishes are confirmed. */
  predicate AllFailConfirmed(steps: seq<Step>) {
    forall i | 0 <= i < |steps| :: steps[i].Handle? ==> !steps[i].result.Success? && steps[i].attempt == Acked
  }

  const TRANSIENT := Failure(Plain(""))

  /** The results of a run's handler calls; where no handler is called, the result does not matter. */
  function ResultsOf(steps: seq<Step>): nat -> HandlerResult {
    (i: nat) => if i < |steps| && steps[i].Handle? then steps[i].result else TRANSIENT
  }

  function HandleSteps(steps: seq<Step>): nat {
    if steps == [] then 0
    else HandleSteps(steps[..|steps| - 1]) + if steps[|steps| - 1].Handle? then 1 else 0
  }

  /** The only copy of a message leaves no choice of the next step but the handler's failure. */
  lemma OnlyStep(s: Service, p: Placed, step: Step, maxRetries: int, c: Copy)
    requires IsService(s) && Enabled(multiset{p}, step) && SameMessage(s, p, c) && HandledKey(s, c.key)
    requires step.Handle? ==> !step.result.Success? && step.attempt == Acked
    ensures step.s == s && p.queue != s.Dlq() && (step.Handle? <==> p.queue == s.queue)
    ensures var result := if step.Handle? then step.result else TRANSIENT;
            Apply(multiset{p}, step, maxRetries) == multiset{Hop(s, p, maxRetries, result)}
  {
    QueueNames(s, step.s);
    QueueNames(step.s, s);
    HopIsStep(s, p, maxRetries, if step.Handle? then step.result else TRANSIENT);
  }

  /** After n steps the run and the walk are at the same place. */
  ghost predicate WalksAlong(s: Service, c: Copy, maxRetries: int, steps: seq<Step>, n: nat)
    requires n <= |steps|
  {
    var start, results := Placed(s.queue, c), ResultsOf(steps);
    true == (
      && Run(multiset{start}, steps[..n], maxRetries) == multiset{Travel(s, start, maxRetries, results, n)}
      && HandleSteps(steps[..n]) == HandledCount(s, start, maxRetries, results, n)
      && (n > 0 ==> Travel(s, start, maxRetries, results, n - 1).queue != s.Dlq()))
  }

  lemma RunStep(held: multiset<Placed>, steps: seq<Step>, maxRetries: int, n: nat)
    requires 0 < n <= |steps|
    ensures Run(held, steps[..n], maxRetries) == Apply(Run(held, steps[..n - 1], maxRetries), steps[n - 1], maxRetries)
    ensures HandleSteps(steps[..n]) == HandleSteps(steps[..n - 1]) + if steps[n - 1].Handle? then 1 else 0
  {
    assert steps[..n][..n - 1] == steps[..n - 1];
  }

  lemma {:induction false} RunIsTravel(s: Service, c: Copy, maxRetries: int, steps: seq<Step>, n: nat)
    requires IsService(s) && HandledKey(s, c.key) && n <= |steps|
    requires AllFailConfirmed(steps) && RunEnabled(multiset{Placed(s.queue, c)}, steps, maxRetries)
    ensures WalksAlong(s, c, maxRetries, steps, n)
  {
    if n > 0 {
      RunIsTravel(s, c, maxRetries, steps, n - 1);
      TravelKeepsMessage(s, c, maxRetries, ResultsOf(steps), n - 1);
      WalkStep(s, c, maxRetries, steps, n);
    }
  }

  lemma WalkStep(s: Service, c: Copy, maxRetries: int, steps: seq<Step>, n: nat)
    requires IsService(s) && HandledKey(s, c.key) && 0 < n <= |steps|
    requires WalksAlong(s, c, maxRetries, steps, n - 1) && AllFailConfirmed(steps)
    requires SameMessage(s, Travel(s, Placed(s.queue, c), maxRetries, ResultsOf(steps), n - 1), c)
    requires Enabled(Run(multiset{Placed(s.queue, c)}, steps[..n - 1], maxRetries), steps[n - 1])
    ensures WalksAlong(s, c, maxRetries, steps, n)
  {
    var start := Placed(s.queue, c);
    var p := Travel(s, start, maxRetries, ResultsOf(steps), n - 1);
    RunStep(multiset{start}, steps, maxRetries, n);
    assert steps[n - 1].Handle? ==> !steps[n - 1].result.Success? && steps[n - 1].attempt == Acked;
    OnlyStep(s, p, steps[n - 1], maxRetries, c);
    WalkJoins(s, c, maxRetries, steps, n, p);
  }

  lemma WalkJoins(s: Service, c: Copy, maxRetries: int, steps: seq<Step>, n: nat, p: Placed)
    requires 0 < n <= |steps| && WalksAlong(s, c, maxRetries, steps, n - 1) && p.queue != s.Dlq()
    requires p == Travel(s, Placed(s.queue, c), maxRetries, ResultsOf(steps), n - 1)
    requires steps[n - 1].Handle? <==> p.queue == s.queue
    requires Run(multiset{Placed(s.queue, c)}, steps[..n], maxRetries) == multiset{Hop(s, p, maxRetries, ResultsOf(steps)(n - 1))}
    requires HandleSteps(steps[..n]) == HandleSteps(steps[..n - 1]) + if steps[n - 1].Handle? then 1 else 0
    ensures WalksAlong(s, c, maxRetries, steps, n)
  {
  }

  lemma AllFailing(steps: seq<Step>, n: nat)
    requires AllFailConfirmed(steps)
    ensures AllFail(ResultsOf(steps), n)
  {
  }

  lemma TravelEnds(s: Service, c: Copy, maxRetries: int, results: nat -> HandlerResult, n: nat)
    requires IsService(s) && HandledKey(s, c.key) && maxRetries <= MAX_INT32 && AllFail(results, n)
    requires n > 0 ==> Travel(s, Placed(s.queue, c), maxRetries, results, n - 1).queue != s.Dlq()
    ensures n <= 2 * Budget(c, maxRetries) + 1
    ensures SameMessage(s, Travel(s, Placed(s.queue, c), maxRetries, results, n), c)
    ensures HandledCount(s, Placed(s.queue, c), maxRetries, results, n) <= Budget(c, maxRetries) + 1
  {
    TravelBounds(s, c, maxRetries, results, n);
    if n > 0 {
      TravelBounds(s, c, maxRetries, results, n - 1);
      StillMoving(s, Travel(s, Placed(s.queue, c), maxRetries, results, n - 1), c, maxRetries);
    }
  }

  lemma StillMoving(s: Service, p: Placed, c: Copy, maxRetries: int)
    requires IsService(s) && SameMessage(s, p, c) && p.queue != s.Dlq()
    ensures Measure(s, p, maxRetries) >= 1
  {
  }

  /** In every run of the retry loop in which the handler of a message always fails and republishes are
      confirmed, the one copy is never lost or multiplied, the handler runs at most once more than there
      are retries left, the run ends after at most 2 * retries + 1 steps, and where no step is left the
      message lies in its own dead-letter queue with its id, body and other headers. */
  lemma {:induction false} FailingRunIsBuried(s: Service, c: Copy, maxRetries: int, steps: seq<Step>) returns (p: Placed)
    requires IsService(s) && HandledKey(s, c.key) && maxRetries <= MAX_INT32
    requires AllFailConfirmed(steps) && RunEnabled(multiset{Placed(s.queue, c)}, steps, maxRetries)
    ensures Run(multiset{Placed(s.queue, c)}, steps, maxRetries) == multiset{p} && SameMessage(s, p, c)
    ensures HandleSteps(steps) <= Budget(c, maxRetries) + 1 && |steps| <= 2 * Budget(c, maxRetries) + 1
    ensures (forall step :: !Enabled(multiset{p}, step)) <==> p.queue == s.Dlq()
  {
    p := Travel(s, Placed(s.queue, c), maxRetries, ResultsOf(steps), |steps|);
    RunIsTravel(s, c, maxRetries, steps, |steps|);
    assert steps[..|steps|] == steps;
    AllFailing(steps, |steps|);
    TravelEnds(s, c, maxRetries, ResultsOf(steps), |steps|);
    StuckIffDead(s, p, c);
  }

  predicate AllTransient(steps: seq<Step>) {
    forall i | 0 <= i < |steps| :: steps[i].Handle? ==> Transient(steps[i].result) && steps[i].attempt == Acked
  }

  /** If all failures are transient and the message is dead, its handler ran exactly once more than there were
      retries left: maxRetries + 1 times for a fresh message. */
  lemma {:induction false} TransientRunUsesBudget(s: Service, c: Copy, maxRetries: int, steps: seq<Step>, p: Placed)
    requires IsService(s) && HandledKey(s, c.key) && MIN_INT32 <= RetryCount(c.headers) && maxRetries <= MAX_INT32
    requires Drives(s, c, maxRetries, steps, p) && p.queue == s.Dlq()
    ensures HandleSteps(steps) == Budget(c, maxRetries) + 1
  {
    DrivesWalk(s, c, maxRetries, steps, p);
    TransientUsesBudget(s, c, maxRetries, ResultsOf(steps), |steps|);
    QueueNames(s, s);
  }

  /** The count that a message arrives with: none, or what another client wrote there. */
  predicate CarriesCount(c: Copy, v: int) {
    true == (
      || (v == 0 && ("x-retry-count" !in c.headers || c.headers["x-retry-count"].Text?))
      || ("x-retry-count" in c.headers
          && (c.headers["x-retry-count"] == Int32(v) || c.headers["x-retry-count"] == Int64(v)
              || c.headers["x-retry-count"] == Int(v))))
  }

  lemma CountRead(c: Copy, v: int)
    requires CarriesCount(c, v)
    ensures RetryCount(c.headers) == v
  {
  }

  /** In plain numbers: a message that arrives with count v, and none means 0, is handled maxRetries - v + 1
      times before transient failures bury it, and once if it has no retries left. */
  lemma {:induction false} HandledRetriesPlusOnce(s: Service, c: Copy, maxRetries: int, steps: seq<Step>, p: Placed, v: int)
    requires IsService(s) && HandledKey(s, c.key) && MIN_INT32 <= v && maxRetries <= MAX_INT32
    requires CarriesCount(c, v)
    requires Drives(s, c, maxRetries, steps, p) && p.queue == s.Dlq()
    ensures HandleSteps(steps) == if v >= maxRetries then 1 else maxRetries - v + 1
  {
    CountRead(c, v);
    TransientRunUsesBudget(s, c, maxRetries, steps, p);
  }

  lemma FailureHop(s: Service, c: Copy, maxRetries: int, error: Error, v: int)
    requires MIN_INT32 <= v && maxRetries <= MAX_INT32 && CarriesCount(c, v)
    ensures Hop(s, Placed(s.queue, c), maxRetries, Failure(error)) ==
              if IsPermanentError(error) || v >= maxRetries
              then Placed(s.queue + ".dlq", c.(key := s.queue + ".dlq"))
              else Placed(s.queue + ".retry", c.(headers := c.headers["x-retry-count" := Int32(v + 1)]))
  {
    CountRead(c, v);
  }

  /** The first failure decides: a marked error, or a count that is used up, buries the message at once; any
      other error sends it to its retry queue with its count raised by one. */
  lemma {:induction false} FirstFailure(s: Service, c: Copy, maxRetries: int, step: Step, v: int)
    requires IsService(s) && HandledKey(s, c.key) && MIN_INT32 <= v && maxRetries <= MAX_INT32 && CarriesCount(c, v)
    requires Enabled(multiset{Placed(s.queue, c)}, step) && step.Handle? && step.result.Failure? && step.attempt == Acked
    ensures var marked := exists i :: 0 <= i < |Chain(step.result.error)| && Chain(step.result.error)[i].Permanent?;
            Apply(multiset{Placed(s.queue, c)}, step, maxRetries) ==
            multiset{if marked || v >= maxRetries
                     then Placed(s.queue + ".dlq", c.(key := s.queue + ".dlq"))
                     else Placed(s.queue + ".retry", c.(headers := c.headers["x-retry-count" := Int32(v + 1)]))}
  {
    OnlyStep(s, Placed(s.queue, c), step, maxRetries, c);
    PermanentIff(step.result.error);
    FailureHop(s, c, maxRetries, step.result.error, v);
  }

  lemma TransientFails(steps: seq<Step>)
    requires AllTransient(steps)
    ensures AllFailConfirmed(steps) && forall i: nat :: Transient(ResultsOf(steps)(i))
  {
  }

  /** A run of transient failures that leads from the main queue to p. */
  ghost predicate Drives(s: Service, c: Copy, maxRetries: int, steps: seq<Step>, p: Placed) {
    true == (
      && AllTransient(steps) && RunEnabled(multiset{Placed(s.queue, c)}, steps, maxRetries)
      && Run(multiset{Placed(s.queue, c)}, steps, maxRetries) == multiset{p})
  }

  lemma DrivesNowhere(s: Service, c: Copy, maxRetries: int)
    ensures Drives(s, c, maxRetries, [], Placed(s.queue, c))
  {
  }

  /** A run in which every handling fails with one and the same transient error. */
  lemma {:induction false} DriveOn(s: Service, c: Copy, maxRetries: int, n: nat) returns (steps: seq<Step>)
    requires IsService(s) && HandledKey(s, c.key)
    ensures Drives(s, c, maxRetries, steps, Travel(s, Placed(s.queue, c), maxRetries, ResultsOf([]), n))
  {
    var start, f := Placed(s.queue, c), ResultsOf([]);
    steps := [];
    if n == 0 {
      DrivesNowhere(s, c, maxRetries);
    } else {
      var before := DriveOn(s, c, maxRetries, n - 1);
      var p := Travel(s, start, maxRetries, f, n - 1);
      TravelKeepsMessage(s, c, maxRetries, f, n - 1);
      steps := DriveStep(s, p, c, maxRetries, before);
    }
  }

  /** One more hop of that run, if the message is not dead yet. */
  lemma DriveStep(s: Service, p: Placed, c: Copy, maxRetries: int, before: seq<Step>) returns (steps: seq<Step>)
    requires IsService(s) && HandledKey(s, c.key) && SameMessage(s, p, c)
    requires Drives(s, c, maxRetries, before, p)
    ensures Drives(s, c, maxRetries, steps, Hop(s, p, maxRetries, TRANSIENT))
  {
    QueueNames(s, s);
    steps := before;
    if p.queue != s.Dlq() {
      var step := if p.queue == s.queue then Handle(s, p.copy, TRANSIENT, Acked) else Expire(s, p.copy);
      HopIsStep(s, p, maxRetries, TRANSIENT);
      DrivesOn(s, c, maxRetries, before, p, step, Hop(s, p, maxRetries, TRANSIENT));
      steps := before + [step];
    }
  }

  lemma DrivesOn(s: Service, c: Copy, maxRetries: int, before: seq<Step>, p: Placed, step: Step, q: Placed)
    requires Drives(s, c, maxRetries, before, p) && Enabled(multiset{p}, step)
    requires step.Handle? ==> Transient(step.result) && step.attempt == Acked
    requires Apply(multiset{p}, step, maxRetries) == multiset{q}
    ensures Drives(s, c, maxRetries, before + [step], q)
  {
    OneStepOn(multiset{Placed(s.queue, c)}, before, step, maxRetries);
  }

  lemma OneStepOn(held: multiset<Placed>, before: seq<Step>, step: Step, maxRetries: int)
    requires RunEnabled(held, before, maxRetries) && Enabled(Run(held, before, maxRetries), step)
    ensures RunEnabled(held, before + [step], maxRetries)
    ensures Run(held, before + [step], maxRetries) == Apply(Run(held, before, maxRetries), step, maxRetries)
  {
    var steps := before + [step];
    assert steps[..|before|] == before;
    forall i | 0 <= i < |steps| ensures Enabled(Run(held, steps[..i], maxRetries), steps[i]) {
      if i < |before| {
        assert steps[..i] == before[..i];
      }
    }
  }

  ghost predicate BuriedBy(s: Service, c: Copy, maxRetries: int, steps: seq<Step>) {
    exists p :: Drives(s, c, maxRetries, steps, p) && p.queue == s.Dlq()
  }

  /** Transient failures alone can bury a message if and only if the limit fits 32 bits or is reached. */
  lemma {:induction false} BuriedRunIff(s: Service, c: Copy, maxRetries: int)
    requires IsService(s) && HandledKey(s, c.key)
    ensures (exists steps :: BuriedBy(s, c, maxRetries, steps))
            <==> maxRetries <= MAX_INT32 || RetryCount(c.headers) >= maxRetries
  {
    if maxRetries <= MAX_INT32 || RetryCount(c.headers) >= maxRetries {
      var start, f := Placed(s.queue, c), ResultsOf([]);
      BuriedIff(s, c, maxRetries, f);
      var n: nat :| Travel(s, start, maxRetries, f, n).queue == s.Dlq();
      var steps := DriveOn(s, c, maxRetries, n);
      assert BuriedBy(s, c, maxRetries, steps);
    } else {
      forall steps ensures !BuriedBy(s, c, maxRetries, steps) {
        if BuriedBy(s, c, maxRetries, steps) {
          var p :| Drives(s, c, maxRetries, steps, p) && p.queue == s.Dlq();
          DrivesWalk(s, c, maxRetries, steps, p);
          BuriedIff(s, c, maxRetries, ResultsOf(steps));
        }
      }
    }
  }

  lemma DrivesWalk(s: Service, c: Copy, maxRetries: int, steps: seq<Step>, p: Placed)
    requires IsService(s) && HandledKey(s, c.key) && Drives(s, c, maxRetries, steps, p)
    ensures Travel(s, Placed(s.queue, c), maxRetries, ResultsOf(steps), |steps|) == p
    ensures HandleSteps(steps) == HandledCount(s, Placed(s.queue, c), maxRetries, ResultsOf(steps), |steps|)
    ensures forall i: nat :: Transient(ResultsOf(steps)(i))
  {
    TransientFails(steps);
    RunIsTravel(s, c, maxRetries, steps, |steps|);
    assert steps[..|steps|] == steps;
    assert p in multiset{Travel(s, Placed(s.queue, c), maxRetries, ResultsOf(steps), |steps|)};
  }

  lemma StuckIffDead(s: Service, p: Placed, c: Copy)
    requires IsService(s) && SameMessage(s, p, c)
    ensures (forall step :: !Enabled(multiset{p}, step)) <==> p.queue == s.Dlq()
  {
    QueueNames(s, s);
    if p.queue == s.queue {
      assert Enabled(multiset{p}, Handle(s, p.copy, Panic, Acked));
    } else if p.queue == s.RetryQueue() {
      assert Enabled(multiset{p}, Expire(s, p.copy));
    } else {
      forall step ensures !Enabled(multiset{p}, step) {
        if IsService(step.s) {
          QueueNames(step.s, s);
        }
      }
    }
  }

  // ---------------------------------------------------------------- redriving a dead-letter queue

  /** scripts/redrive-dlq.sh takes a copy out of a dead-letter queue and publishes it to an exchange under
      the routing key it carries, without its retry count. */
  function Redriven(exchange: string, c: Copy): multiset<Placed> {
    Published(Full(), exchange, c.key, c.(headers := c.headers - {HEADER_RETRY_COUNT}))
  }

  /** The key that a dead message carries is the name of its dead-letter queue. */
  lemma {:induction false} DeadKey(s: Service, c: Copy, maxRetries: int, results: nat -> HandlerResult, n: nat)
    requires IsService(s)
    ensures var p := Travel(s, Placed(s.queue, c), maxRetries, results, n);
            (p.queue == s.queue || p.queue == s.RetryQueue()) || (p.queue == s.Dlq() && p.copy.key == s.Dlq())
  {
    QueueNames(s, s);
    if n > 0 {
      DeadKey(s, c, maxRetries, results, n - 1);
    }
  }

  lemma NotAKey(s: Service, s': Service)
    requires IsService(s) && IsService(s')
    ensures s.Dlq() !in s'.keys && s.Dlq() !in s'.retryKeys
  {
    var d := s.Dlq();
    assert d[|d| - 1] == 'q';
    forall k | k in s'.keys || k in s'.retryKeys ensures k[|k| - 1] != 'q' {
    }
  }

  /** Redriving reaches a command queue exactly when the copy carries one of that queue's keys ... */
  lemma {:induction false} RedriveIff(s: Service, c: Copy)
    requires s == INVENTORY || s == PAYMENT
    ensures s.queue in Route(Full(), COMMANDS, c.key) <==> c.key in s.keys
    ensures c.key in s.keys ==> Redriven(COMMANDS, c) == Only(s.queue, c.(headers := c.headers - {"x-retry-count"}))
  {
    FullExchanges();
    ServiceQueues(s);
    QueueNames(INVENTORY, PAYMENT);
    if c.key in s.keys {
      CommandRoute(s, c.key);
      assert Route(Full(), COMMANDS, c.key) == {s.queue};
      PublishedOnly(COMMANDS, c.key, c.(headers := c.headers - {HEADER_RETRY_COUNT}), s.queue);
    } else {
      forall b | b in Full().bindings && b.exchange == COMMANDS && b.queue == s.queue ensures b.key in s.keys {
        FullBindings(b);
      }
    }
  }

  /** ... which a dead message never does: redriving commands drops them all, and redriving events brings
      them to the orchestrator under a key that it skips. */
  lemma {:induction false} RedriveLoses(s: Service, c: Copy)
    requires IsService(s) && c.key == s.Dlq()
    ensures Redriven(COMMANDS, c) == multiset{}
    ensures forall p :: p in Redriven(EVENTS, c) ==> p.queue == ORDER.queue && !HandledKey(ORDER, p.copy.key)
  {
    FullExchanges();
    forall b | b in Full().bindings && b.exchange == COMMANDS ensures b.key != c.key {
      FullBindings(b);
      NotAKey(s, INVENTORY);
      NotAKey(s, PAYMENT);
    }
    assert Route(Full(), COMMANDS, c.key) == {};
    NotAKey(s, ORDER);
    EventRoute(c.key);
  }
}
