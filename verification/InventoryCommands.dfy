/** The inventory worker.  Other workers run between any two of its database calls. */
module InventoryCommands {
  import opened SagaTypes
  import opened InventoryDatabase
  import opened Protocol
  import opened OptimisticLock
  import opened InventoryStore
  import opened Network
  import opened Cluster

  /** Which branch a reserve command took. */
  datatype ReserveOutcome =
    | AlreadyReserved
    | ReservedNow(attempt: nat)
    | Insufficient(available: int)
    | Exhausted
    | NotHandled
  {
    predicate Success() { AlreadyReserved? || ReservedNow? }
  }

  // ---------------------------------------------------------------- the worker's own steps

  lemma BeginReserveStep(w: World, wk: WorkerId, m: Message)
    requires Idle(w, wk) && m in w.net && m.body.ReserveInventoryCmd?
    ensures Exec(w, [BeginReserve(wk, m)])
         == Assign(w, wk, if HasLog(w.inv.logs, m.body.orderId, Reserve) then Pub(Reserved(m.body, true, ""))
                          else LoopOrGiveUp(m.body, 0, w.maxRetries))
  {
    ExecOne(w, BeginReserve(wk, m));
  }

  lemma ReadStockStep(w: World, wk: WorkerId, cmd: Payload, attempt: nat)
    requires Idle(w, wk) && cmd.ReserveInventoryCmd?
    ensures Next(Assign(w, wk, ReserveLoop(cmd, attempt)), ReadStock(wk)) ==
      if cmd.productId !in w.inv.rows then w
      else if w.inv.rows[cmd.productId].available < cmd.quantity
      then Assign(w, wk, Pub(Reserved(cmd, false, INSUFFICIENT_STOCK)))
      else Assign(w, wk, ReserveCas(cmd, attempt, w.inv.rows[cmd.productId].version))
  {
    Dropped(w, wk, ReserveLoop(cmd, attempt));
  }

  lemma CasReserveStep(w: World, wk: WorkerId, cmd: Payload, attempt: nat, version: int)
    requires Idle(w, wk) && cmd.ReserveInventoryCmd?
    ensures Next(Assign(w, wk, ReserveCas(cmd, attempt, version)), CasReserve(wk)) ==
      match ReserveTx(w.inv, cmd.productId, cmd.orderId, version, cmd.quantity)
      case NoRow => Assign(w, wk, LoopOrGiveUp(cmd, attempt + 1, w.maxRetries))
      case DuplicateLog => w
      case Applied(inv') => Assign(w.(inv := inv'), wk, Pub(Reserved(cmd, true, "")))
  {
    Dropped(w, wk, ReserveCas(cmd, attempt, version));
  }

  lemma PutsSplit(before: seq<Action>, after: seq<Action>, p: ProductId)
    ensures NoAdminPut(before + after, p) ==> NoAdminPut(before, p) && NoAdminPut(after, p)
  {
    if NoAdminPut(before + after, p) {
      forall i | 0 <= i < |before| ensures !(before[i].AdminPut? && before[i].p == p) {
        assert (before + after)[i] == before[i];
      }
      forall i | 0 <= i < |after| ensures !(after[i].AdminPut? && after[i].p == p) {
        assert (before + after)[|before| + i] == after[i];
      }
    }
  }

  lemma LogsOnlyGrow(logs: seq<InventoryLog>, logs': seq<InventoryLog>, o: OrderId, action: LogAction)
    requires logs <= logs'
    ensures HasLog(logs, o, action) ==> HasLog(logs', o, action)
  {
  }

  /** What an outcome says about the run from start that ends the call, and about the world then.
      A refusal saw too little stock at step `seen`, or its row was overtaken as often as it may try;
      an error without an answer is a database fault, a missing row or a duplicate log. */
  ghost predicate ReserveExplained(start: World, trace: seq<Action>, seen: nat, cmd: Payload, outcome: ReserveOutcome,
                            faulty: bool)
    requires cmd.ReserveInventoryCmd?
  {
    var end := Exec(start, trace);
    true == match outcome
    case AlreadyReserved => HasLog(start.inv.logs, cmd.orderId, Reserve)
    case ReservedNow(attempt) =>
      && attempt < start.maxRetries && !HasLog(start.inv.logs, cmd.orderId, Reserve)
      && InventoryLog(cmd.productId, cmd.orderId, Reserve, cmd.quantity) in end.inv.logs
    case Insufficient(available) =>
      && seen <= |trace|
      && var rows := Exec(start, trace[..seen]).inv.rows;
         cmd.productId in rows && rows[cmd.productId].available == available < cmd.quantity
    case Exhausted =>
      NoAdminPut(trace, cmd.productId) ==>
        VersionOf(end, cmd.productId) >= VersionOf(start, cmd.productId) + start.maxRetries
    case NotHandled => faulty || cmd.productId !in end.inv.rows || HasLog(end.inv.logs, cmd.orderId, Reserve)
  }

  /** n turns of the loop that found no row. */
  function Turns(wk: WorkerId, n: nat): seq<Action> {
    if n == 0 then [] else Turns(wk, n - 1) + [ReadStock(wk), CasReserve(wk)]
  }

  /** The faults of a call, and what the world was like when it ended. */
  datatype Setting = Setting(env: nat -> Gap, missing: bool, duplicate: bool)

  ghost function SettingOf(env: nat -> Gap, end: World, cmd: Payload): Setting
    requires cmd.ReserveInventoryCmd?
  {
    Setting(env, cmd.productId !in end.inv.rows, HasLog(end.inv.logs, cmd.orderId, Reserve))
  }

  /** How turn n ends if it decides the call.  Without an answer it ends only at a fault, at a row that is
      missing, or at a RESERVE log that somebody else wrote during the call. */
  predicate LastTurn(tail: seq<Action>, wk: WorkerId, n: nat, outcome: ReserveOutcome, last: Action, at: Setting) {
    match outcome
    case ReservedNow(turn) => turn == n && tail == [ReadStock(wk), CasReserve(wk), last]
    case Insufficient(_) => tail == [ReadStock(wk), last]
    case NotHandled =>
      var readFails, swapFails := at.env(2 * n + 1).fault, at.env(2 * n + 2).fault;
      || (tail == [Crash(wk)] && readFails)
      || (tail == [ReadStock(wk)] && !readFails && at.missing)
      || (tail == [ReadStock(wk), Crash(wk)] && !readFails && swapFails)
      || (tail == [ReadStock(wk), CasReserve(wk)] && !readFails && !swapFails && at.duplicate)
    case _ => false
  }

  /** The worker's own steps after it took the command: full turns, and how the last one ended. */
  ghost predicate LoopSteps(steps: seq<Action>, wk: WorkerId, outcome: ReserveOutcome, maxRetries: nat, last: Action,
                            at: Setting)
  {
    true == match outcome
    case AlreadyReserved => steps == [last]
    case Exhausted => steps == Turns(wk, maxRetries) + [last]
    case _ =>
      exists n: nat, tail: seq<Action> ::
        n < maxRetries && steps == Turns(wk, n) + tail && LastTurn(tail, wk, n, outcome, last, at)
  }

  ghost predicate OwnSteps(own: seq<Action>, b: Action, wk: WorkerId, outcome: ReserveOutcome, maxRetries: nat,
                           last: Action, at: Setting)
  {
    true == (own != [] && own[0] == b && LoopSteps(own[1..], wk, outcome, maxRetries, last, at))
  }

  lemma TurnEnds(own: seq<Action>, before: seq<Action>, b: Action, wk: WorkerId, n: nat, tail: seq<Action>,
                 outcome: ReserveOutcome, maxRetries: nat, last: Action, at: Setting)
    requires before == [b] + Turns(wk, n) && own == before + tail && n < maxRetries
    requires LastTurn(tail, wk, n, outcome, last, at)
    ensures OwnSteps(own, b, wk, outcome, maxRetries, last, at)
  {
    assert own[1..] == Turns(wk, n) + tail;
  }

  lemma TurnLost(own: seq<Action>, b: Action, wk: WorkerId, n: nat)
    requires own == [b] + Turns(wk, n) + [ReadStock(wk)] + [CasReserve(wk)]
    ensures own == [b] + Turns(wk, n + 1)
  {
  }

  /** Of the run that a call is, the worker's own steps are those of handleReserve: none exactly if the log
      check fails, and else the taking of the command, full turns, and one end. */
  ghost predicate ReserveSteps(own: seq<Action>, wk: WorkerId, m: Message, outcome: ReserveOutcome, maxRetries: nat,
                               last: Action, at: Setting)
  {
    if at.env(0).fault then own == [] && outcome == NotHandled
    else OwnSteps(own, BeginReserve(wk, m), wk, outcome, maxRetries, last, at)
  }

  /** The call is over: it was a run of the protocol, its outcome is explained, and if it was
      acknowledged its answer is on the network. */
  ghost predicate Decided(start: World, end: World, trace: seq<Action>, seen: nat, cmd: Payload,
                          outcome: ReserveOutcome, faulty: bool, ok: bool, confirmed: bool)
    requires cmd.ReserveInventoryCmd?
  {
    true == (
      && end == Exec(start, trace)
      && (ok <==> outcome != NotHandled && confirmed)
      && (ok ==> Answered(start, end, ReserveReply(cmd, outcome)))
      && ReserveExplained(start, trace, seen, cmd, outcome, faulty))
  }

  /** The same, with the steps that the run is made of. */
  ghost predicate Concluded(start: World, end: World, trace: seq<Action>, seen: nat, cmd: Payload, outcome: ReserveOutcome,
                            env: nat -> Gap, ok: bool, attempts: nat -> Attempt, wk: WorkerId, b: Action)
    requires cmd.ReserveInventoryCmd?
  {
    true == (
      && Idle(end, wk) && outcome != AlreadyReserved
      && Decided(start, end, trace, seen, cmd, outcome, Faulty(env, 2 * start.maxRetries), ok, Acknowledged(attempts))
      && OwnSteps(Own(trace, wk), b, wk, outcome, start.maxRetries, LastStep(wk, attempts), SettingOf(env, end, cmd))
      && OthersFrom(trace, wk, env, 2 * start.maxRetries + 1))
  }

  /** The gaps of one more turn. */
  lemma TurnGaps(env: nat -> Gap, n: nat)
    ensures Batches(env, 2 * n + 1) == Batches(env, 2 * n) + env(2 * n + 1).others
    ensures Batches(env, 2 * n + 2) == Batches(env, 2 * n + 1) + env(2 * n + 2).others
    ensures Batches(env, 2 * n + 3) == Batches(env, 2 * n + 2) + env(2 * n + 3).others
    ensures Batches(env, 2 * (n + 1)) == Batches(env, 2 * n + 2)
  {
    assert 2 * (n + 1) == 2 * n + 2;
  }

  /** A turn ends the call, or leaves it at the head of the loop again. */
  ghost predicate Turned(decided: bool, start: World, now: World, trace: seq<Action>, seen: nat, cmd: Payload,
                         outcome: ReserveOutcome, env: nat -> Gap, ok: bool, attempts: nat -> Attempt, wk: WorkerId,
                         b: Action, attempt: nat)
    requires cmd.ReserveInventoryCmd?
  {
    true == (if decided then Concluded(start, now, trace, seen, cmd, outcome, env, ok, attempts, wk, b)
             else Looping(start, now, trace, wk, cmd, attempt + 1, b, env))
  }

  /** All that a call of handleReserve promises, from world start to world end.
      The run is made of the steps of handleReserve and of the others' steps in its gaps; there is none if the
      log check itself fails.  Otherwise an order that was reserved before is answered as reserved, and no
      other order is.  An acknowledged command is answered, and the answer is what happened. */
  ghost predicate ReserveDone(start: World, end: World, trace: seq<Action>, seen: nat, wk: WorkerId, m: Message,
                              env: nat -> Gap, attempts: nat -> Attempt, ok: bool, outcome: ReserveOutcome)
    requires m.body.ReserveInventoryCmd?
  {
    && Decided(start, end, trace, seen, m.body, outcome, Faulty(env, 2 * start.maxRetries), ok, Acknowledged(attempts))
    && ReserveSteps(Own(trace, wk), wk, m, outcome, start.maxRetries, LastStep(wk, attempts), SettingOf(env, end, m.body))
    && OthersFrom(trace, wk, env, 2 * start.maxRetries + 1)
    && (env(0).fault ==> trace == [])
    && (!env(0).fault ==> (outcome == AlreadyReserved <==> HasLog(start.inv.logs, m.body.orderId, Reserve)))
    && (ok <==> outcome != NotHandled && Acknowledged(attempts))
    && (ok && (outcome.AlreadyReserved? || outcome.ReservedNow?) ==>
          Answered(start, end, InventoryReservedEvent(m.body.sagaId, m.body.orderId, m.body.productId, m.body.quantity,
                                                      true, "")))
    && (ok && (outcome.Insufficient? || outcome.Exhausted?) ==>
          Answered(start, end, InventoryReservedEvent(m.body.sagaId, m.body.orderId, m.body.productId, m.body.quantity,
                                                      false, "INSUFFICIENT_STOCK")))
  }

  // ---------------------------------------------------------------- the ways the loop ends

  /** Turn n has got as far as these own steps. */
  ghost predicate InTurn(start: World, run: seq<Action>, cmd: Payload, env: nat -> Gap, wk: WorkerId, b: Action, n: nat,
                         tail: seq<Action>, gaps: nat)
  {
    true == (
      && n < start.maxRetries && !HasLog(start.inv.logs, cmd.orderId, Reserve)
      && Own(run, wk) == [b] + Turns(wk, n) + tail
      && Theirs(run, wk) == Batches(env, gaps) && gaps <= 2 * n + 2)
  }

  lemma TurnBegins(start: World, now: World, begun: seq<Action>, run: seq<Action>, cmd: Payload, env: nat -> Gap,
                   wk: WorkerId, b: Action, n: nat, step: Action)
    requires cmd.ReserveInventoryCmd? && Looping(start, now, begun, wk, cmd, n, b, env)
    requires n < start.maxRetries && !HasLog(start.inv.logs, cmd.orderId, Reserve)
    requires Own(run, wk) == Own(begun, wk) + [step] && Theirs(run, wk) == Theirs(begun, wk) + env(2 * n + 1).others
    ensures InTurn(start, run, cmd, env, wk, b, n, [step], 2 * n + 1)
  {
    TurnGaps(env, n);
  }

  lemma TurnGoesOn(start: World, read: seq<Action>, run: seq<Action>, cmd: Payload, env: nat -> Gap, wk: WorkerId,
                   b: Action, n: nat, step: Action)
    requires InTurn(start, read, cmd, env, wk, b, n, [ReadStock(wk)], 2 * n + 1)
    requires Own(run, wk) == Own(read, wk) + [step] && Theirs(run, wk) == Theirs(read, wk) + env(2 * n + 2).others
    ensures InTurn(start, run, cmd, env, wk, b, n, [ReadStock(wk), step], 2 * n + 2)
  {
    TurnGaps(env, n);
    assert [b] + Turns(wk, n) + [ReadStock(wk)] + [step] == [b] + Turns(wk, n) + [ReadStock(wk), step];
  }

  lemma ErrorConcluded(start: World, end: World, trace: seq<Action>, cmd: Payload, env: nat -> Gap, attempts: nat -> Attempt,
                       wk: WorkerId, b: Action, n: nat, tail: seq<Action>, gaps: nat)
    requires cmd.ReserveInventoryCmd? && Idle(end, wk) && end == Exec(start, trace)
    requires InTurn(start, trace, cmd, env, wk, b, n, tail, gaps)
    requires LastTurn(tail, wk, n, NotHandled, LastStep(wk, attempts), SettingOf(env, end, cmd))
    ensures Concluded(start, end, trace, 0, cmd, NotHandled, env, false, attempts, wk, b)
  {
    TurnEnds(Own(trace, wk), [b] + Turns(wk, n), b, wk, n, tail, NotHandled, start.maxRetries, LastStep(wk, attempts),
             SettingOf(env, end, cmd));
  }

  /** The read met a fault, or no row. */
  lemma ReadFailed(start: World, end: World, trace: seq<Action>, cmd: Payload, env: nat -> Gap, attempts: nat -> Attempt,
                   wk: WorkerId, b: Action, n: nat, step: Action)
    requires cmd.ReserveInventoryCmd? && Idle(end, wk) && end == Exec(start, trace)
    requires InTurn(start, trace, cmd, env, wk, b, n, [step], 2 * n + 1)
    requires if env(2 * n + 1).fault then step == Crash(wk) else step == ReadStock(wk) && cmd.productId !in end.inv.rows
    ensures Concluded(start, end, trace, 0, cmd, NotHandled, env, false, attempts, wk, b)
  {
    ErrorConcluded(start, end, trace, cmd, env, attempts, wk, b, n, [step], 2 * n + 1);
  }

  /** The swap met a fault, or a RESERVE log. */
  lemma SwapFailed(start: World, end: World, read: seq<Action>, trace: seq<Action>, cmd: Payload, env: nat -> Gap,
                   attempts: nat -> Attempt, wk: WorkerId, b: Action, n: nat, step: Action)
    requires cmd.ReserveInventoryCmd? && Idle(end, wk) && end == Exec(start, trace) && !env(2 * n + 1).fault
    requires InTurn(start, read, cmd, env, wk, b, n, [ReadStock(wk)], 2 * n + 1)
    requires Own(trace, wk) == Own(read, wk) + [step] && Theirs(trace, wk) == Theirs(read, wk) + env(2 * n + 2).others
    requires if env(2 * n + 2).fault then step == Crash(wk)
             else step == CasReserve(wk) && HasLog(end.inv.logs, cmd.orderId, Reserve)
    ensures Concluded(start, end, trace, 0, cmd, NotHandled, env, false, attempts, wk, b)
  {
    TurnGoesOn(start, read, trace, cmd, env, wk, b, n, step);
    ErrorConcluded(start, end, trace, cmd, env, attempts, wk, b, n, [ReadStock(wk), step], 2 * n + 2);
  }

  ghost predicate ReadTooLittle(w: World, cmd: Payload, available: int)
    requires cmd.ReserveInventoryCmd?
  {
    true == (
      cmd.productId in w.inv.rows && w.inv.rows[cmd.productId].available == available && available < cmd.quantity)
  }

  lemma RefusalConcluded(start: World, end: World, read: seq<Action>, trace: seq<Action>, cmd: Payload, env: nat -> Gap,
                         attempts: nat -> Attempt, ok: bool, wk: WorkerId, b: Action, n: nat, available: int)
    requires cmd.ReserveInventoryCmd? && InTurn(start, read, cmd, env, wk, b, n, [ReadStock(wk)], 2 * n + 1)
    requires Replied(start, end, read, trace, wk, Reserved(cmd, false, INSUFFICIENT_STOCK), env(2 * n + 2).others, attempts, ok)
    requires ReadTooLittle(Exec(start, read), cmd, available)
    ensures Concluded(start, end, trace, |read|, cmd, Insufficient(available), env, ok, attempts, wk, b)
  {
    TurnGaps(env, n);
    assert trace[..|read|] == read;
    var tail := [ReadStock(wk), LastStep(wk, attempts)];
    assert Own(trace, wk) == [b] + Turns(wk, n) + tail;
    TurnEnds(Own(trace, wk), [b] + Turns(wk, n), b, wk, n, tail, Insufficient(available), start.maxRetries,
             LastStep(wk, attempts), SettingOf(env, end, cmd));
  }

  lemma SuccessConcluded(start: World, end: World, swapped: seq<Action>, trace: seq<Action>, cmd: Payload, env: nat -> Gap,
                         attempts: nat -> Attempt, ok: bool, wk: WorkerId, b: Action, n: nat)
    requires cmd.ReserveInventoryCmd?
    requires InTurn(start, swapped, cmd, env, wk, b, n, [ReadStock(wk), CasReserve(wk)], 2 * n + 2)
    requires Replied(start, end, swapped, trace, wk, Reserved(cmd, true, ""), env(2 * n + 3).others, attempts, ok)
    requires InventoryLog(cmd.productId, cmd.orderId, Reserve, cmd.quantity) in Exec(start, swapped).inv.logs
    ensures Concluded(start, end, trace, 0, cmd, ReservedNow(n), env, ok, attempts, wk, b)
  {
    TurnGaps(env, n);
    var tail := [ReadStock(wk), CasReserve(wk), LastStep(wk, attempts)];
    assert Own(trace, wk) == [b] + Turns(wk, n) + tail;
    TurnEnds(Own(trace, wk), [b] + Turns(wk, n), b, wk, n, tail, ReservedNow(n), start.maxRetries,
             LastStep(wk, attempts), SettingOf(env, end, cmd));
  }

  lemma ExhaustionConcluded(start: World, end: World, passed: seq<Action>, trace: seq<Action>, cmd: Payload,
                            env: nat -> Gap, attempts: nat -> Attempt, ok: bool, wk: WorkerId, b: Action)
    requires cmd.ReserveInventoryCmd? && !HasLog(start.inv.logs, cmd.orderId, Reserve)
    requires Replied(start, end, passed, trace, wk, Reserved(cmd, false, INSUFFICIENT_STOCK),
                     env(2 * start.maxRetries + 1).others, attempts, ok)
    requires Own(passed, wk) == [b] + Turns(wk, start.maxRetries) && Theirs(passed, wk) == Batches(env, 2 * start.maxRetries)
    requires NoAdminPut(passed, cmd.productId) ==>
               VersionOf(Exec(start, passed), cmd.productId) >= VersionOf(start, cmd.productId) + start.maxRetries
    ensures Concluded(start, end, trace, 0, cmd, Exhausted, env, ok, attempts, wk, b)
  {
    TurnGaps(env, start.maxRetries);
    assert trace == passed + trace[|passed|..];
    PutsSplit(passed, trace[|passed|..], cmd.productId);
    VersionGrows(Exec(start, passed), trace[|passed|..], cmd.productId);
    assert Own(trace, wk)[1..] == Turns(wk, start.maxRetries) + [LastStep(wk, attempts)];
  }

  /** At the head of the loop: `attempt` turns have found no row, and each was overtaken. */
  ghost predicate Looping(start: World, now: World, trace: seq<Action>, wk: WorkerId, cmd: Payload, attempt: nat, b: Action,
                          env: nat -> Gap)
    requires cmd.ReserveInventoryCmd?
  {
    true == (
      && Idle(now, wk) && attempt <= now.maxRetries == start.maxRetries
      && Assign(now, wk, LoopOrGiveUp(cmd, attempt, now.maxRetries)) == Exec(start, trace)
      && Own(trace, wk) == [b] + Turns(wk, attempt) && Theirs(trace, wk) == Batches(env, 2 * attempt)
      && start.inv.logs <= now.inv.logs
      && (NoAdminPut(trace, cmd.productId) ==>
            VersionOf(now, cmd.productId) >= VersionOf(start, cmd.productId) + attempt))
  }

  function ReserveReply(cmd: Payload, outcome: ReserveOutcome): Payload
    requires cmd.ReserveInventoryCmd?
  {
    Reserved(cmd, outcome.Success(), if outcome.Success() then "" else INSUFFICIENT_STOCK)
  }

  // ---------------------------------------------------------------- release

  lemma RowStays(w: World, actions: seq<Action>, p: ProductId)
    ensures p in w.inv.rows ==> p in Exec(w, actions).inv.rows
  {
    if p in w.inv.rows {
      SameVersionSameRow(w, actions, p);
    }
  }

  /** Which branch a release command took. */
  datatype ReleaseOutcome = AlreadyReleased | ReleasedNow | Refused(reason: string) | Unchecked
  {
    predicate Success() { AlreadyReleased? || ReleasedNow? }
  }

  function ReleaseReply(cmd: Payload, outcome: ReleaseOutcome): Payload
    requires cmd.ReleaseInventoryCmd?
  {
    Released(cmd, outcome.Success(), if outcome.Refused? then outcome.reason else "")
  }

  /** What the transaction found: a fault, a missing row, a RELEASE log of someone else, or none of these. */
  ghost predicate ReleaseDecided(before: InventoryDb, after: InventoryDb, cmd: Payload, outcome: ReleaseOutcome,
                                 fault: bool, errorText: string)
    requires cmd.ReleaseInventoryCmd?
  {
    match outcome
    case ReleasedNow =>
      && !fault && |after.logs| > 0
      && after.logs[|after.logs| - 1] == InventoryLog(cmd.productId, cmd.orderId, Release, cmd.quantity)
    case Refused(reason) =>
      || (reason == errorText && (fault || HasLog(after.logs, cmd.orderId, Release)))
      || (reason == NotFound(cmd.productId) && cmd.productId !in before.rows)
    case _ => false
  }

  ghost predicate ReleaseExplained(start: World, trace: seq<Action>, cmd: Payload, outcome: ReleaseOutcome,
                                   checkFails: bool, commitFails: bool, errorText: string)
    requires cmd.ReleaseInventoryCmd?
  {
    var end := Exec(start, trace);
    true == match outcome
    case Unchecked => checkFails && end == start
    case AlreadyReleased => HasLog(start.inv.logs, cmd.orderId, Release)
    case ReleasedNow =>
      && !HasLog(start.inv.logs, cmd.orderId, Release)
      && InventoryLog(cmd.productId, cmd.orderId, Release, cmd.quantity) in end.inv.logs
    case Refused(reason) =>
      && !HasLog(start.inv.logs, cmd.orderId, Release)
      && ((reason == errorText && (commitFails || HasLog(end.inv.logs, cmd.orderId, Release)))
          || (reason == NotFound(cmd.productId) && cmd.productId !in start.inv.rows))
  }

  /** Of the run that a release call is, the worker's own steps. */
  function ReleaseSteps(wk: WorkerId, m: Message, outcome: ReleaseOutcome, commit: Action, last: Action): seq<Action> {
    match outcome
    case Unchecked => []
    case AlreadyReleased => [BeginRelease(wk, m), last]
    case _ => [BeginRelease(wk, m), commit, last]
  }

  /** All that a call of handleRelease promises, from world start to world end. */
  ghost predicate ReleaseDone(start: World, end: World, trace: seq<Action>, wk: WorkerId, m: Message, env: nat -> Gap,
                              errorText: string, attempts: nat -> Attempt, ok: bool, outcome: ReleaseOutcome)
    requires m.body.ReleaseInventoryCmd?
  {
    && end == Exec(start, trace)
    && (ok <==> outcome != Unchecked && Acknowledged(attempts))
    && ReleaseExplained(start, trace, m.body, outcome, env(0).fault, env(1).fault, errorText)
    && Own(trace, wk) == ReleaseSteps(wk, m, outcome, CommitRelease(wk, env(1).fault, errorText), LastStep(wk, attempts))
    && OthersFrom(trace, wk, env, 2)
    && (outcome == Unchecked <==> env(0).fault)
    && (!env(0).fault ==> (outcome == AlreadyReleased <==> HasLog(start.inv.logs, m.body.orderId, Release)))
    && (ok && (outcome.AlreadyReleased? || outcome.ReleasedNow?) ==>
          Answered(start, end, InventoryReleasedEvent(m.body.sagaId, m.body.orderId, m.body.productId, m.body.quantity,
                                                      true, "")))
    && (ok && outcome.Refused? ==>
          Answered(start, end, InventoryReleasedEvent(m.body.sagaId, m.body.orderId, m.body.productId, m.body.quantity,
                                                      false, outcome.reason)))
  }

  lemma BeginReleaseStep(w: World, wk: WorkerId, m: Message)
    requires Idle(w, wk) && m in w.net && m.body.ReleaseInventoryCmd?
    ensures Exec(w, [BeginRelease(wk, m)])
         == Assign(w, wk, if HasLog(w.inv.logs, m.body.orderId, Release) then Pub(Released(m.body, true, ""))
                          else ReleaseTxn(m.body))
  {
    ExecOne(w, BeginRelease(wk, m));
  }

  lemma CommitReleaseStep(w: World, wk: WorkerId, cmd: Payload, fault: bool, errorText: string)
    requires Idle(w, wk) && cmd.ReleaseInventoryCmd?
    ensures Next(Assign(w, wk, ReleaseTxn(cmd)), CommitRelease(wk, fault, errorText)) ==
      if fault then Assign(w, wk, Pub(Released(cmd, false, errorText)))
      else match ReleaseTx(w.inv, cmd.productId, cmd.orderId, cmd.quantity)
           case NoRow => Assign(w, wk, Pub(Released(cmd, false, NotFound(cmd.productId))))
           case DuplicateLog => Assign(w, wk, Pub(Released(cmd, false, errorText)))
           case Applied(inv') => Assign(w.(inv := inv'), wk, Pub(Released(cmd, true, "")))
  {
  }

  class InventoryCommandHandler {
    const sys: System

    constructor (system: System)
      ensures sys == system
    {
      sys := system;
    }

    /** GetByProductID; None for a missing row or a database error. */
    method ReadRow(wk: WorkerId, cmd: Payload, attempt: nat, gap: Gap, ghost start: World, ghost trace: seq<Action>)
      returns (row: Option<Inventory>, ghost trace': seq<Action>)
      requires cmd.ReserveInventoryCmd? && Idle(sys.World(), wk) && OfOthers(gap.others, wk)
      requires sys.During(wk, ReserveLoop(cmd, attempt)) == Exec(start, trace)
      modifies sys.Parts()
      ensures Idle(sys.World(), wk)
      ensures NoAdminPut(trace', cmd.productId) ==> NoAdminPut(trace, cmd.productId)
      ensures Own(trace', wk) == Own(trace, wk) + [if gap.fault then Crash(wk) else ReadStock(wk)]
      ensures Theirs(trace', wk) == Theirs(trace, wk) + gap.others
      ensures gap.fault ==> row.None?
      ensures VersionOf(old(sys.World()), cmd.productId) <= VersionOf(sys.World(), cmd.productId)
      ensures old(sys.World()).inv.logs <= sys.World().inv.logs
      ensures row.None? ==> sys.World() == Exec(start, trace') && (gap.fault || cmd.productId !in sys.World().inv.rows)
      ensures row.Some? ==>
        && cmd.productId in sys.World().inv.rows && sys.World().inv.rows[cmd.productId] == row.value
        && Exec(start, trace') == sys.During(wk, if row.value.available < cmd.quantity
                                                 then Pub(Reserved(cmd, false, INSUFFICIENT_STOCK))
                                                 else ReserveCas(cmd, attempt, row.value.version))
    {
      ghost var before := sys.World();
      trace' := sys.Others(wk, gap.others, ReserveLoop(cmd, attempt), start, trace);
      VersionGrows(before, gap.others, cmd.productId);
      RunLogsGrow(before, gap.others);
      PutsSplit(trace, gap.others, cmd.productId);
      ghost var step := if gap.fault then Crash(wk) else ReadStock(wk);
      PutsSplit(trace', [step], cmd.productId);
      ExecSnoc(start, trace', step);
      OwnStep(trace', step, wk);
      if gap.fault {
        GivenUp(sys.World(), wk, ReserveLoop(cmd, attempt), start, trace');
        row := None;
      } else {
        ReadStockStep(sys.World(), wk, cmd, attempt);
        row := sys.inventory.GetByProductID(cmd.productId);
      }
      trace' := trace' + [step];
    }

    /** ReserveAtomic with the version that was read. */
    method CompareAndSwap(wk: WorkerId, cmd: Payload, attempt: nat, read: Inventory, gap: Gap, ghost start: World,
                          ghost trace: seq<Action>)
      returns (res: Affected, ghost trace': seq<Action>)
      requires cmd.ReserveInventoryCmd? && Idle(sys.World(), wk) && OfOthers(gap.others, wk)
      requires sys.During(wk, ReserveCas(cmd, attempt, read.version)) == Exec(start, trace)
      requires cmd.productId in sys.World().inv.rows && sys.World().inv.rows[cmd.productId] == read
      requires read.available >= cmd.quantity
      modifies sys.Parts()
      ensures Idle(sys.World(), wk)
      ensures NoAdminPut(trace', cmd.productId) ==> NoAdminPut(trace, cmd.productId)
      ensures Own(trace', wk) == Own(trace, wk) + [if gap.fault then Crash(wk) else CasReserve(wk)]
      ensures Theirs(trace', wk) == Theirs(trace, wk) + gap.others
      ensures gap.fault ==> res.TxError?
      ensures res.TxError? ==>
        sys.World() == Exec(start, trace') && (gap.fault || HasLog(sys.World().inv.logs, cmd.orderId, Reserve))
      ensures old(sys.World()).inv.logs <= sys.World().inv.logs
      ensures res.Rows? && res.n > 0 ==>
        && InventoryLog(cmd.productId, cmd.orderId, Reserve, cmd.quantity) in sys.World().inv.logs
        && !HasLog(old(sys.World()).inv.logs, cmd.orderId, Reserve)
        && Exec(start, trace') == sys.During(wk, Pub(Reserved(cmd, true, "")))
      ensures res.Rows? && res.n == 0 ==>
        && Exec(start, trace') == sys.During(wk, LoopOrGiveUp(cmd, attempt + 1, sys.maxRetries))
        && (NoAdminPut(trace', cmd.productId) ==>
              VersionOf(sys.World(), cmd.productId) >= VersionOf(old(sys.World()), cmd.productId) + 1)
    {
      ghost var before := sys.World();
      trace' := sys.Others(wk, gap.others, ReserveCas(cmd, attempt, read.version), start, trace);
      RunLogsGrow(before, gap.others);
      PutsSplit(trace, gap.others, cmd.productId);
      ghost var atSwap := sys.World();
      ghost var step := if gap.fault then Crash(wk) else CasReserve(wk);
      PutsSplit(trace', [step], cmd.productId);
      ExecSnoc(start, trace', step);
      OwnStep(trace', step, wk);
      if gap.fault {
        GivenUp(atSwap, wk, ReserveCas(cmd, attempt, read.version), start, trace');
        res := TxError;
      } else {
        CasReserveStep(atSwap, wk, cmd, attempt, read.version);
        res := sys.inventory.ReserveAtomic(cmd.productId, cmd.orderId, read.version, cmd.quantity);
        if res == Rows(0) && NoAdminPut(gap.others, cmd.productId) {
          LostRace(before, gap.others, cmd.productId, cmd.orderId, cmd.quantity);
        }
        if res == Rows(1) {
          LogsOnlyGrow(before.inv.logs, atSwap.inv.logs, cmd.orderId, Reserve);
        }
      }
      trace' := trace' + [step];
    }

    /** One turn of the loop: read, decide, swap.  Undecided means that the swap found no row. */
    method TryOnce(wk: WorkerId, cmd: Payload, attempt: nat, env: nat -> Gap, attempts: nat -> Attempt,
                   ghost start: World, ghost begun: seq<Action>, ghost b: Action)
      returns (decided: bool, ok: bool, outcome: ReserveOutcome, ghost trace: seq<Action>, ghost seen: nat)
      requires cmd.ReserveInventoryCmd? && OthersOnly(env, wk)
      requires Looping(start, sys.World(), begun, wk, cmd, attempt, b, env)
      requires attempt < sys.maxRetries && !HasLog(start.inv.logs, cmd.orderId, Reserve)
      modifies sys.Parts()
      ensures Turned(decided, start, sys.World(), trace, seen, cmd, outcome, env, ok, attempts, wk, b, attempt)
    {
      decided, ok, outcome, seen := true, false, NotHandled, 0;
      ghost var step := if env(2 * attempt + 1).fault then Crash(wk) else ReadStock(wk);
      ghost var before := sys.World();
      var row: Option<Inventory>;
      row, trace := ReadRow(wk, cmd, attempt, env(2 * attempt + 1), start, begun);
      TurnBegins(start, before, begun, trace, cmd, env, wk, b, attempt, step);
      if row.None? {
        ReadFailed(start, sys.World(), trace, cmd, env, attempts, wk, b, attempt, step);
      } else if row.value.available < cmd.quantity {
        seen, outcome := |trace|, Insufficient(row.value.available);
        ok, trace := Refuse(wk, cmd, attempt, row.value, env, attempts, start, trace, b);
      } else {
        decided, ok, outcome, trace, seen := SwapOnce(wk, cmd, attempt, row.value, env, attempts, start, trace, b);
      }
    }

    /** Too little stock was read: the command is refused. */
    method Refuse(wk: WorkerId, cmd: Payload, attempt: nat, row: Inventory, env: nat -> Gap, attempts: nat -> Attempt,
                  ghost start: World, ghost read: seq<Action>, ghost b: Action)
      returns (ok: bool, ghost trace: seq<Action>)
      requires cmd.ReserveInventoryCmd? && Idle(sys.World(), wk) && OthersOnly(env, wk)
      requires sys.During(wk, Pub(Reserved(cmd, false, INSUFFICIENT_STOCK))) == Exec(start, read)
      requires ReadTooLittle(sys.World(), cmd, row.available)
      requires InTurn(start, read, cmd, env, wk, b, attempt, [ReadStock(wk)], 2 * attempt + 1)
      modifies sys.Parts()
      ensures Concluded(start, sys.World(), trace, |read|, cmd, Insufficient(row.available), env, ok, attempts, wk, b)
    {
      ok, trace := sys.Reply(wk, Reserved(cmd, false, INSUFFICIENT_STOCK), env(2 * attempt + 2), attempts, start, read);
      RefusalConcluded(start, sys.World(), read, trace, cmd, env, attempts, ok, wk, b, attempt, row.available);
    }

    /** The second half of a turn: ReserveAtomic, and the reply if it succeeds. */
    method SwapOnce(wk: WorkerId, cmd: Payload, attempt: nat, row: Inventory, env: nat -> Gap, attempts: nat -> Attempt,
                    ghost start: World, ghost read: seq<Action>, ghost b: Action)
      returns (decided: bool, ok: bool, outcome: ReserveOutcome, ghost trace: seq<Action>, ghost seen: nat)
      requires cmd.ReserveInventoryCmd? && Idle(sys.World(), wk) && OthersOnly(env, wk)
      requires sys.During(wk, ReserveCas(cmd, attempt, row.version)) == Exec(start, read)
      requires cmd.productId in sys.World().inv.rows && sys.World().inv.rows[cmd.productId] == row
      requires row.available >= cmd.quantity
      requires InTurn(start, read, cmd, env, wk, b, attempt, [ReadStock(wk)], 2 * attempt + 1)
      requires !env(2 * attempt + 1).fault && sys.maxRetries == start.maxRetries
      requires start.inv.logs <= sys.World().inv.logs
      requires NoAdminPut(read, cmd.productId) ==>
                 VersionOf(sys.World(), cmd.productId) >= VersionOf(start, cmd.productId) + attempt
      modifies sys.Parts()
      ensures Turned(decided, start, sys.World(), trace, seen, cmd, outcome, env, ok, attempts, wk, b, attempt)
    {
      decided, ok, outcome, seen := true, false, NotHandled, 0;
      TurnGaps(env, attempt);
      LogsOnlyGrow(start.inv.logs, sys.World().inv.logs, cmd.orderId, Reserve);
      var res: Affected;
      res, trace := CompareAndSwap(wk, cmd, attempt, row, env(2 * attempt + 2), start, read);
      if res.TxError? {
        SwapFailed(start, sys.World(), read, trace, cmd, env, attempts, wk, b, attempt,
                   if env(2 * attempt + 2).fault then Crash(wk) else CasReserve(wk));
      } else if res.n > 0 {
        TurnGoesOn(start, read, trace, cmd, env, wk, b, attempt, CasReserve(wk));
        outcome := ReservedNow(attempt);
        ok, trace := Confirm(wk, cmd, attempt, env, attempts, start, trace, b);
      } else {
        decided := false;
        TurnLost(Own(trace, wk), b, wk, attempt);
      }
    }

    /** The swap went through: the reservation is confirmed. */
    method Confirm(wk: WorkerId, cmd: Payload, attempt: nat, env: nat -> Gap, attempts: nat -> Attempt,
                   ghost start: World, ghost swapped: seq<Action>, ghost b: Action)
      returns (ok: bool, ghost trace: seq<Action>)
      requires cmd.ReserveInventoryCmd? && Idle(sys.World(), wk) && OthersOnly(env, wk)
      requires sys.During(wk, Pub(Reserved(cmd, true, ""))) == Exec(start, swapped)
      requires InventoryLog(cmd.productId, cmd.orderId, Reserve, cmd.quantity) in sys.World().inv.logs
      requires InTurn(start, swapped, cmd, env, wk, b, attempt, [ReadStock(wk), CasReserve(wk)], 2 * attempt + 2)
      modifies sys.Parts()
      ensures Concluded(start, sys.World(), trace, 0, cmd, ReservedNow(attempt), env, ok, attempts, wk, b)
    {
      ok, trace := sys.Reply(wk, Reserved(cmd, true, ""), env(2 * attempt + 3), attempts, start, swapped);
      SuccessConcluded(start, sys.World(), swapped, trace, cmd, env, attempts, ok, wk, b, attempt);
    }

    /** The loop of handleReserve and the reply after it. */
    method RetryLoop(wk: WorkerId, cmd: Payload, env: nat -> Gap, attempts: nat -> Attempt, ghost start: World,
                     ghost begun: seq<Action>, ghost b: Action)
      returns (ok: bool, outcome: ReserveOutcome, ghost trace: seq<Action>, ghost seen: nat)
      requires cmd.ReserveInventoryCmd? && OthersOnly(env, wk)
      requires Looping(start, sys.World(), begun, wk, cmd, 0, b, env)
      requires !HasLog(start.inv.logs, cmd.orderId, Reserve)
      modifies sys.Parts()
      ensures Concluded(start, sys.World(), trace, seen, cmd, outcome, env, ok, attempts, wk, b)
    {
      trace := begun;
      var attempt := 0;
      while attempt < sys.maxRetries
        invariant attempt <= sys.maxRetries && Looping(start, sys.World(), trace, wk, cmd, attempt, b, env)
      {
        var decided: bool;
        decided, ok, outcome, trace, seen := TryOnce(wk, cmd, attempt, env, attempts, start, trace, b);
        if decided {
          return;
        }
        attempt := attempt + 1;
      }
      seen, outcome := 0, Exhausted;
      ok, trace := AfterRetries(wk, cmd, env, attempts, start, trace, b);
    }

    /** All retries are used up under contention: the command is refused. */
    method AfterRetries(wk: WorkerId, cmd: Payload, env: nat -> Gap, attempts: nat -> Attempt, ghost start: World,
                        ghost passed: seq<Action>, ghost b: Action)
      returns (ok: bool, ghost trace: seq<Action>)
      requires cmd.ReserveInventoryCmd? && OthersOnly(env, wk)
      requires Looping(start, sys.World(), passed, wk, cmd, sys.maxRetries, b, env)
      requires !HasLog(start.inv.logs, cmd.orderId, Reserve)
      modifies sys.Parts()
      ensures Concluded(start, sys.World(), trace, 0, cmd, Exhausted, env, ok, attempts, wk, b)
    {
      ok, trace := sys.Reply(wk, Reserved(cmd, false, INSUFFICIENT_STOCK), env(2 * sys.maxRetries + 1), attempts, start, passed);
      ExhaustionConcluded(start, sys.World(), passed, trace, cmd, env, attempts, ok, wk, b);
    }

    /** Under any interleaving with other workers, the call is a run of the protocol, made of the steps of
        handleReserve and of the others' steps in its gaps.  A command that is acknowledged has been
        answered, and the answer is what happened; unless the log check itself fails, an order that was
        reserved before is always answered as reserved. */
    method HandleReserve(wk: WorkerId, m: Message, env: nat -> Gap, attempts: nat -> Attempt)
      returns (ok: bool, outcome: ReserveOutcome, ghost trace: seq<Action>, ghost seen: nat)
      requires m in sys.pub.net && m.body.ReserveInventoryCmd?
      requires Idle(sys.World(), wk) && OthersOnly(env, wk)
      modifies sys.Parts()
      ensures Idle(sys.World(), wk)
      ensures ReserveDone(old(sys.World()), sys.World(), trace, seen, wk, m, env, attempts, ok, outcome)
    {
      ghost var start := sys.World();
      seen, trace := 0, [];
      assert Theirs(trace, wk) == Batches(env, 0);
      if env(0).fault {
        return false, NotHandled, trace, seen;
      }
      var done := sys.inventory.ExistsReserve(m.body.orderId);
      BeginReserveStep(start, wk, m);
      trace := [BeginReserve(wk, m)];
      OwnStep([], BeginReserve(wk, m), wk);
      if done {
        ok, trace := sys.Reply(wk, Reserved(m.body, true, ""), env(1), attempts, start, trace);
        outcome := AlreadyReserved;
        assert Theirs(trace, wk) == Batches(env, 1);
      } else {
        ok, outcome, trace, seen := RetryLoop(wk, m.body, env, attempts, start, trace, BeginReserve(wk, m));
      }
    }

    method HandleRelease(wk: WorkerId, m: Message, env: nat -> Gap, errorText: string, attempts: nat -> Attempt)
      returns (ok: bool, outcome: ReleaseOutcome, ghost trace: seq<Action>)
      requires m in sys.pub.net && m.body.ReleaseInventoryCmd?
      requires Idle(sys.World(), wk) && OthersOnly(env, wk)
      modifies sys.Parts()
      ensures Idle(sys.World(), wk)
      ensures ReleaseDone(old(sys.World()), sys.World(), trace, wk, m, env, errorText, attempts, ok, outcome)
    {
      ghost var start := sys.World();
      trace := [];
      assert Theirs(trace, wk) == Batches(env, 0);
      if env(0).fault {
        return false, Unchecked, trace;
      }
      var done := sys.inventory.ExistsRelease(m.body.orderId);
      BeginReleaseStep(start, wk, m);
      trace := [BeginRelease(wk, m)];
      OwnStep([], BeginRelease(wk, m), wk);
      if done {
        ok, trace := sys.Reply(wk, Released(m.body, true, ""), env(1), attempts, start, trace);
        assert Theirs(trace, wk) == Batches(env, 1);
        return ok, AlreadyReleased, trace;
      }
      outcome, trace := Refund(wk, m.body, env(1), errorText, start, trace);
      assert Theirs(trace, wk) == Batches(env, 1);
      ok, trace := sys.Reply(wk, ReleaseReply(m.body, outcome), env(2), attempts, start, trace);
      assert Theirs(trace, wk) == Batches(env, 2);
    }

    /** ReleaseAtomic, and the reply that its result calls for. */
    method Refund(wk: WorkerId, cmd: Payload, gap: Gap, errorText: string, ghost start: World, ghost begun: seq<Action>)
      returns (outcome: ReleaseOutcome, ghost trace: seq<Action>)
      requires cmd.ReleaseInventoryCmd? && Idle(sys.World(), wk) && OfOthers(gap.others, wk)
      requires sys.During(wk, ReleaseTxn(cmd)) == Exec(start, begun)
      requires !HasLog(sys.World().inv.logs, cmd.orderId, Release)
      modifies sys.Parts()
      ensures Idle(sys.World(), wk)
      ensures sys.During(wk, Pub(ReleaseReply(cmd, outcome))) == Exec(start, trace)
      ensures Own(trace, wk) == Own(begun, wk) + [CommitRelease(wk, gap.fault, errorText)]
      ensures Theirs(trace, wk) == Theirs(begun, wk) + gap.others
      ensures !outcome.AlreadyReleased? && !outcome.Unchecked?
      ensures ReleaseDecided(old(sys.World()).inv, sys.World().inv, cmd, outcome, gap.fault, errorText)
    {
      ghost var before := sys.World();
      trace := sys.Others(wk, gap.others, ReleaseTxn(cmd), start, begun);
      ghost var atCommit := sys.World();
      CommitReleaseStep(atCommit, wk, cmd, gap.fault, errorText);
      ExecSnoc(start, trace, CommitRelease(wk, gap.fault, errorText));
      OwnStep(trace, CommitRelease(wk, gap.fault, errorText), wk);
      trace := trace + [CommitRelease(wk, gap.fault, errorText)];
      RowStays(before, gap.others, cmd.productId);
      if gap.fault {
        outcome := Refused(errorText);
      } else {
        var res := sys.inventory.ReleaseAtomic(cmd.productId, cmd.orderId, cmd.quantity);
        match res
        case TxError => outcome := Refused(errorText);
        case Rows(n) => outcome := if n == 0 then Refused(NotFound(cmd.productId)) else ReleasedNow;
      }
    }
  }
}
