/** Recovery: complete rounds strictly lower the rank of a saga, and a round can always be completed. */
module Progress {
  import opened SagaTypes
  import opened Protocol
  import opened Invariant
  import opened Preservation
  import opened Accounting
  import opened StockSafety

  /** 4 before the saga starts, then the rank of its step. */
  function SagaRank(w: World, s: Uuid): nat {
    if s in w.db.sagas then StepRank(w.db.sagas[s].step) else 4
  }

  ghost function RankAt(w: World, actions: seq<Action>, s: Uuid, i: nat): nat
    requires i <= |actions|
  {
    SagaRank(Exec(w, actions[..i]), s)
  }

  function CommandRank(b: Payload): nat {
    match b
    case ReserveInventoryCmd(_, _, _, _) => 3
    case ProcessPaymentCmd(_, _, _) => 2
    case ReleaseInventoryCmd(_, _, _, _) => 1
    case _ => 0
  }

  /** e is the kind of reply that command c asks for, for the same saga. */
  predicate Answers(e: Payload, c: Payload) {
    CommandRank(c) >= 1 && EventRank(e) == CommandRank(c) && e.sagaId == c.sagaId && e.orderId == c.orderId
  }

  // ---------------------------------------------------------------- ranks along a run

  lemma StepRankNeverRises(w: World, a: Action, s: Uuid)
    requires Consistent(w)
    ensures SagaRank(Next(w, a), s) <= SagaRank(w, s)
  {
    StepConsistent(w, a);
    if s in w.db.sagas {
      StepNeverRaises(w, Next(w, a), s);
    } else {
      RankBounded(Next(w, a), s);
    }
  }

  lemma RankBounded(w: World, s: Uuid)
    ensures SagaRank(w, s) <= 4
    ensures SagaRank(w, s) == 0 ==> s in w.db.sagas && w.db.sagas[s].step == Done
  {
  }

  lemma RankStep(w: World, actions: seq<Action>, s: Uuid, i: nat)
    requires Consistent(w) && i < |actions|
    ensures RankAt(w, actions, s, i + 1) <= RankAt(w, actions, s, i)
  {
    RunConsistent(w, actions[..i]);
    ExecStep(w, actions, i);
    StepRankNeverRises(Exec(w, actions[..i]), actions[i], s);
  }

  /** No action, of recovery, of a worker or of the environment, ever raises a rank. */
  lemma {:induction false} RankNeverRises(w: World, actions: seq<Action>, s: Uuid, i: nat, j: nat)
    requires Consistent(w) && i <= j <= |actions|
    ensures RankAt(w, actions, s, j) <= RankAt(w, actions, s, i)
    decreases j - i
  {
    if i < j {
      RankNeverRises(w, actions, s, i, j - 1);
      RankStep(w, actions, s, j - 1);
    }
  }

  // ---------------------------------------------------------------- delivering a reply

  /** A published event finds its saga waiting for it or already past it, never before it. */
  lemma EventNotEarly(w: World, b: Payload)
    requires Inv(w) && Backed(w, b) && b.IsEvent()
    ensures b.sagaId in w.db.sagas && StepRank(w.db.sagas[b.sagaId].step) <= EventRank(b)
    ensures Awaits(w.db.sagas[b.sagaId], b) <==> StepRank(w.db.sagas[b.sagaId].step) == EventRank(b)
  {
    assert b.sagaId in w.db.sagas && w.db.sagas[b.sagaId].orderId == b.orderId;
    RankOfPhase(w, b.sagaId);
    assert RowOk(w.db.sagas[b.sagaId], w.db.orders[b.orderId].status, Moves(w, b.sagaId));
  }

  lemma IgnoredMeansPassed(w: World, e: Message)
    requires Inv(w) && Accounted(w) && e in w.net && e.body.IsEvent() && React(w.db, e).Ignored?
    ensures Passed(w, e.body)
  {
    assert Backed(w, e.body);
    EventNotEarly(w, e.body);
    if e.id !in w.db.processed {
      ReactMeaning(w, e);
    }
  }

  /** Delivering a reply, fresh or stale, new or repeated, leaves its saga past the step it answers. */
  lemma {:induction false} DeliveryPasses(w: World, wk: WorkerId, e: Message, recorded: bool)
    requires Consistent(w) && Idle(w, wk) && e in w.net && e.body.IsEvent()
    ensures SagaRank(Next(w, HandleEvent(wk, e, recorded)), e.body.sagaId) < EventRank(e.body)
  {
    if React(w.db, e).Ignored? {
      IgnoredMeansPassed(w, e);
    } else {
      MoveOfAction(w, HandleEvent(wk, e, recorded));
    }
  }

  // ---------------------------------------------------------------- rounds

  /** A round: a recovery tick lists the saga, its command is on the network, and a reply to that kind
      of command is delivered to the orchestrator. */
  datatype Round = Round(list: nat, handle: nat, command: Message, reply: Message)

  /** The command that a recovery tick sends for a saga in this world, if any. */
  function CommandFor(w: World, s: Uuid): Option<Payload> {
    if s in w.db.sagas then RecoveryCommand(w.db, SagaRow(s, w.db.sagas[s])) else None
  }

  ghost predicate ReplyHandled(w: World, a: Action, r: Round) {
    true == (r.command in w.net && r.reply in w.net && Answers(r.reply.body, r.command.body)
             && a.HandleEvent? && a.m == r.reply && Idle(w, a.wk))
  }

  ghost predicate IsRound(w: World, actions: seq<Action>, s: Uuid, r: Round) {
    true == (
      && r.list < r.handle < |actions|
      && CommandFor(Exec(w, actions[..r.list]), s) == Some(r.command.body)
      && ReplyHandled(Exec(w, actions[..r.handle]), actions[r.handle], r))
  }

  lemma CommandNamesRank(w: World, s: Uuid)
    requires CommandFor(w, s).Some?
    ensures CommandFor(w, s).value.sagaId == s && CommandRank(CommandFor(w, s).value) == SagaRank(w, s)
  {
  }

  lemma HandledLowers(w: World, a: Action, r: Round)
    requires Consistent(w) && ReplyHandled(w, a, r)
    ensures SagaRank(Next(w, a), r.command.body.sagaId) < CommandRank(r.command.body)
  {
    DeliveryPasses(w, a.wk, r.reply, a.recorded);
  }

  lemma RoundLowersRank(w: World, actions: seq<Action>, s: Uuid, r: Round)
    requires Consistent(w) && IsRound(w, actions, s, r)
    ensures RankAt(w, actions, s, r.handle + 1) < RankAt(w, actions, s, r.list)
  {
    CommandNamesRank(Exec(w, actions[..r.list]), s);
    RunConsistent(w, actions[..r.handle]);
    ExecStep(w, actions, r.handle);
    HandledLowers(Exec(w, actions[..r.handle]), actions[r.handle], r);
  }

  /** Rounds one after the other. */
  ghost predicate InSequence(w: World, actions: seq<Action>, s: Uuid, rounds: seq<Round>) {
    true == (
      && (forall i :: 0 <= i < |rounds| ==> IsRound(w, actions, s, rounds[i]))
      && (forall i :: 0 < i < |rounds| ==> rounds[i - 1].handle < rounds[i].list))
  }

  ghost function RankTrace(w: World, actions: seq<Action>, s: Uuid): seq<nat> {
    seq(|actions| + 1, i requires 0 <= i <= |actions| => RankAt(w, actions, s, i))
  }

  /** Spans of a falling sequence that lie one after the other and each lose something. */
  ghost predicate LosingSpans(ranks: seq<nat>, rounds: seq<Round>) {
    true == (
      && (forall i, j :: 0 <= i <= j < |ranks| ==> ranks[j] <= ranks[i])
      && (forall i :: 0 <= i < |rounds| ==>
            rounds[i].list <= rounds[i].handle < |ranks| - 1 && ranks[rounds[i].handle + 1] < ranks[rounds[i].list])
      && (forall i :: 0 < i < |rounds| ==> rounds[i - 1].handle < rounds[i].list))
  }

  lemma {:induction false} SpansAddUp(ranks: seq<nat>, rounds: seq<Round>)
    requires LosingSpans(ranks, rounds) && |rounds| > 0
    ensures SpansLose(ranks, rounds)
    decreases |rounds|
  {
    var n := |rounds| - 1;
    if n > 0 {
      SpansAddUp(ranks, rounds[..n]);
      assert ranks[rounds[n].list] <= ranks[rounds[n - 1].handle + 1];
    }
  }

  lemma RoundsAreSpans(w: World, actions: seq<Action>, s: Uuid, rounds: seq<Round>)
    requires Consistent(w) && InSequence(w, actions, s, rounds)
    ensures LosingSpans(RankTrace(w, actions, s), rounds)
  {
    forall i, j | 0 <= i <= j <= |actions| {
      RankNeverRises(w, actions, s, i, j);
    }
    forall i | 0 <= i < |rounds| {
      RoundLowersRank(w, actions, s, rounds[i]);
    }
  }

  lemma TraceAt(w: World, actions: seq<Action>, s: Uuid, i: nat)
    requires i <= |actions|
    ensures |RankTrace(w, actions, s)| == |actions| + 1 && RankTrace(w, actions, s)[i] == RankAt(w, actions, s, i)
  {
  }

  ghost predicate SpansLose(ranks: seq<nat>, rounds: seq<Round>)
    requires |rounds| > 0
  {
    && rounds[0].list < |ranks| && rounds[|rounds| - 1].handle + 1 < |ranks|
    && ranks[rounds[|rounds| - 1].handle + 1] + |rounds| <= ranks[rounds[0].list]
  }

  lemma TraceLoses(w: World, actions: seq<Action>, s: Uuid, rounds: seq<Round>)
    requires Consistent(w) && InSequence(w, actions, s, rounds) && |rounds| > 0
    ensures SpansLose(RankTrace(w, actions, s), rounds)
  {
    RoundsAreSpans(w, actions, s, rounds);
    SpansAddUp(RankTrace(w, actions, s), rounds);
  }

  /** Each complete round costs the saga at least one rank, whatever else is interleaved. */
  lemma {:induction false} RoundsLowerRank(w: World, actions: seq<Action>, s: Uuid, rounds: seq<Round>)
    requires Consistent(w) && InSequence(w, actions, s, rounds) && |rounds| > 0
    ensures rounds[0].list <= |actions| && rounds[|rounds| - 1].handle < |actions|
    ensures RankAt(w, actions, s, rounds[|rounds| - 1].handle + 1) + |rounds| <= RankAt(w, actions, s, rounds[0].list)
  {
    TraceLoses(w, actions, s, rounds);
    TraceAt(w, actions, s, rounds[0].list);
    TraceAt(w, actions, s, rounds[|rounds| - 1].handle + 1);
  }

  lemma ListedRank(w: World, actions: seq<Action>, s: Uuid, r: Round)
    requires IsRound(w, actions, s, r)
    ensures RankAt(w, actions, s, r.list) <= 3
  {
    CommandNamesRank(Exec(w, actions[..r.list]), s);
  }

  lemma RoundsFitIn(w: World, actions: seq<Action>, s: Uuid, rounds: seq<Round>)
    requires Consistent(w) && InSequence(w, actions, s, rounds) && |rounds| > 0
    ensures RankAt(w, actions, s, |actions|) + |rounds| <= 3
  {
    RoundsLowerRank(w, actions, s, rounds);
    assert IsRound(w, actions, s, rounds[0]);
    ListedRank(w, actions, s, rounds[0]);
    RankNeverRises(w, actions, s, rounds[|rounds| - 1].handle + 1, |actions|);
  }

  /** Three complete rounds finish the saga, and no run holds a fourth. */
  lemma {:induction false} ThreeRoundsFinish(w: World, actions: seq<Action>, s: Uuid, rounds: seq<Round>)
    requires Consistent(w) && InSequence(w, actions, s, rounds) && |rounds| >= 3
    ensures |rounds| == 3
    ensures s in Exec(w, actions).db.sagas && Exec(w, actions).db.sagas[s].step == Done
  {
    RoundsFitIn(w, actions, s, rounds);
    assert actions[..|actions|] == actions;
    RankBounded(Exec(w, actions), s);
  }
}
