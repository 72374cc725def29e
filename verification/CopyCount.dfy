/** How many copies of messages there are: only a success takes one away, and only a republish whose
    confirmation was lost adds one. */
module CopyCount {
  import opened AmqpRetry
  import opened BrokerTopology
  import opened Routing
  import opened Network
  import opened Consumer
  import opened DeadLetters

  predicate Done(step: Step) { step.Handle? && step.result.Success? }

  /** A failure whose republish arrived without its confirmation. */
  predicate Doubled(step: Step) { step.Handle? && step.result.Failure? && step.attempt == AckLost }

  function DoneSteps(steps: seq<Step>): nat {
    if steps == [] then 0
    else DoneSteps(steps[..|steps| - 1]) + if Done(steps[|steps| - 1]) then 1 else 0
  }

  function DoubledSteps(steps: seq<Step>): nat {
    if steps == [] then 0
    else DoubledSteps(steps[..|steps| - 1]) + if Doubled(steps[|steps| - 1]) then 1 else 0
  }

  /** What waits in a retry queue has a key that leads back. */
  ghost predicate WaitsRightly(p: Placed) {
    forall s: Service | IsService(s) && p.queue == s.RetryQueue() :: p.copy.key in s.retryKeys
  }

  ghost predicate AllWaitRightly(held: multiset<Placed>) {
    forall p | p in held :: WaitsRightly(p)
  }

  lemma InQueue(s: Service, c: Copy)
    requires IsService(s)
    ensures WaitsRightly(Placed(s.queue, c)) && WaitsRightly(Placed(s.Dlq(), c))
  {
    forall s': Service | IsService(s')
      ensures s.queue != s'.RetryQueue() && s.Dlq() != s'.RetryQueue()
    {
      QueueNames(s, s');
      QueueNames(s', s);
    }
  }

  lemma InRetryQueue(s: Service, c: Copy)
    requires IsService(s) && c.key in s.retryKeys
    ensures WaitsRightly(Placed(s.RetryQueue(), c))
  {
    forall s': Service | IsService(s') && s.RetryQueue() == s'.RetryQueue() ensures s' == s {
      QueueNames(s, s');
    }
  }

  lemma RetryCopies(s: Service, c: Copy, attempt: Attempt)
    requires IsService(s) && HandledKey(s, c.key)
    ensures |Retried(Full(), s.queue, c, attempt)| == 1 + if attempt == AckLost then 1 else 0
    ensures AllWaitRightly(Retried(Full(), s.queue, c, attempt))
  {
    RetryRoundTrip(s, c);
    HandledCanRetry(s, c.key);
    InQueue(s, c);
    InRetryQueue(s, WithNextCount(c));
  }

  lemma BuriedCopies(s: Service, c: Copy, attempt: Attempt)
    requires IsService(s)
    ensures |Buried(Full(), s.queue, c, attempt)| == 1 + if attempt == AckLost then 1 else 0
    ensures |DeadLettered(Full(), s.queue, c)| == 1
    ensures AllWaitRightly(Buried(Full(), s.queue, c, attempt)) && AllWaitRightly(DeadLettered(Full(), s.queue, c))
  {
    RejectedOnly(s, c);
    InQueue(s, c.(key := s.Dlq()));
  }

  /** What becomes of one delivery: nothing after a success, otherwise one copy, or two if doubled. */
  lemma OutcomeCopies(s: Service, c: Copy, maxRetries: int, result: HandlerResult, attempt: Attempt)
    requires IsService(s) && (result.Failure? ==> HandledKey(s, c.key))
    ensures var out := Outcome(Full(), s.queue, c, maxRetries, result, attempt);
            && AllWaitRightly(out)
            && |out| == if result.Success? then 0 else if result.Failure? && attempt == AckLost then 2 else 1
  {
    BuriedCopies(s, c, attempt);
    if result.Failure? {
      RetryCopies(s, c, attempt);
    }
  }

  lemma Replaced(held: multiset<Placed>, p: Placed, out: multiset<Placed>)
    requires p in held && AllWaitRightly(held) && AllWaitRightly(out)
    ensures AllWaitRightly(held - multiset{p} + out)
    ensures |held - multiset{p} + out| == |held| - 1 + |out|
  {
  }

  lemma StepCopies(held: multiset<Placed>, step: Step, maxRetries: int)
    requires Enabled(held, step) && AllWaitRightly(held)
    ensures AllWaitRightly(Apply(held, step, maxRetries))
    ensures |Apply(held, step, maxRetries)| ==
              |held| + (if Doubled(step) then 1 else 0) - (if Done(step) then 1 else 0)
  {
    var c := step.copy;
    match step
    case Handle(s, _, result, attempt) =>
      OutcomeCopies(s, c, maxRetries, result, attempt);
      Replaced(held, Placed(s.queue, c), Outcome(Full(), s.queue, c, maxRetries, result, attempt));
    case Expire(s, _) =>
      assert WaitsRightly(Placed(s.RetryQueue(), c));
      ExpiryReturns(s, c);
      InQueue(s, c);
      Replaced(held, Placed(s.RetryQueue(), c), Only(s.queue, c));
  }

  /** The books balance in every run: copies at the end are those at the start, plus one for every
      republish whose confirmation was lost, minus one for every success. */
  lemma {:induction false} CopiesBalance(held: multiset<Placed>, steps: seq<Step>, maxRetries: int)
    requires AllWaitRightly(held) && RunEnabled(held, steps, maxRetries)
    ensures AllWaitRightly(Run(held, steps, maxRetries))
    ensures |Run(held, steps, maxRetries)| == |held| + DoubledSteps(steps) - DoneSteps(steps)
    decreases |steps|
  {
    if steps != [] {
      var before := steps[..|steps| - 1];
      EnabledBefore(held, steps, maxRetries, |steps| - 1);
      CopiesBalance(held, before, maxRetries);
      StepCopies(Run(held, before, maxRetries), steps[|steps| - 1], maxRetries);
    }
  }

  /** One message and no lost confirmation: after its success there is no copy of it in any queue, dead-letter
      queues included, and before its success there is exactly one. */
  lemma {:induction false} SuccessEndsIt(s: Service, c: Copy, maxRetries: int, steps: seq<Step>)
    requires IsService(s) && RunEnabled(multiset{Placed(s.queue, c)}, steps, maxRetries)
    requires forall i | 0 <= i < |steps| :: !Doubled(steps[i])
    ensures (exists i :: 0 <= i < |steps| && Done(steps[i]))
            <==> Run(multiset{Placed(s.queue, c)}, steps, maxRetries) == multiset{}
    ensures (exists i :: 0 <= i < |steps| && Done(steps[i]))
            <==> |Run(multiset{Placed(s.queue, c)}, steps, maxRetries)| != 1
    ensures forall i | 0 <= i < |steps| && Done(steps[i]) :: i == |steps| - 1
  {
    InQueue(s, c);
    CopiesBalance(multiset{Placed(s.queue, c)}, steps, maxRetries);
    NoneDoubled(steps);
    SomeDone(steps);
    forall i | 0 <= i < |steps| && Done(steps[i]) ensures i == |steps| - 1 {
      OnceDone(s, c, maxRetries, steps, i);
    }
  }

  lemma LastDone(s: Service, c: Copy, maxRetries: int, steps: seq<Step>)
    requires IsService(s) && RunEnabled(multiset{Placed(s.queue, c)}, steps, maxRetries)
    requires DoubledSteps(steps) == 0 && steps != [] && Done(steps[|steps| - 1])
    ensures Run(multiset{Placed(s.queue, c)}, steps, maxRetries) == multiset{}
  {
    InQueue(s, c);
    CopiesBalance(multiset{Placed(s.queue, c)}, steps, maxRetries);
  }

  /** Nothing is held after a success, so there is no step after it. */
  lemma EmptyAfter(s: Service, c: Copy, maxRetries: int, steps: seq<Step>, i: nat)
    requires IsService(s) && RunEnabled(multiset{Placed(s.queue, c)}, steps, maxRetries)
    requires forall j | 0 <= j < |steps| :: !Doubled(steps[j])
    requires i < |steps| && Done(steps[i])
    ensures Run(multiset{Placed(s.queue, c)}, steps[..i + 1], maxRetries) == multiset{}
  {
    var first := steps[..i + 1];
    EnabledBefore(multiset{Placed(s.queue, c)}, steps, maxRetries, i + 1);
    NoneDoubled(first);
    LastDone(s, c, maxRetries, first);
  }

  lemma OnceDone(s: Service, c: Copy, maxRetries: int, steps: seq<Step>, i: nat)
    requires IsService(s) && RunEnabled(multiset{Placed(s.queue, c)}, steps, maxRetries)
    requires forall j | 0 <= j < |steps| :: !Doubled(steps[j])
    requires i < |steps| && Done(steps[i])
    ensures i == |steps| - 1
  {
    if i + 1 < |steps| {
      assert Enabled(Run(multiset{Placed(s.queue, c)}, steps[..i + 1], maxRetries), steps[i + 1]);
      EmptyAfter(s, c, maxRetries, steps, i);
    }
  }

  lemma {:induction false} NoneDoubled(steps: seq<Step>)
    requires forall i | 0 <= i < |steps| :: !Doubled(steps[i])
    ensures DoubledSteps(steps) == 0
  {
    if steps != [] {
      NoneDoubled(steps[..|steps| - 1]);
    }
  }

  lemma {:induction false} SomeDone(steps: seq<Step>)
    ensures DoneSteps(steps) > 0 <==> exists i :: 0 <= i < |steps| && Done(steps[i])
  {
    if steps != [] {
      var before := steps[..|steps| - 1];
      SomeDone(before);
      if Done(steps[|steps| - 1]) {
      } else if i :| 0 <= i < |steps| && Done(steps[i]) {
        assert Done(before[i]);
      }
      if DoneSteps(before) > 0 {
        var j :| 0 <= j < |before| && Done(before[j]);
        assert steps[j] == before[j];
      }
    }
  }
}
