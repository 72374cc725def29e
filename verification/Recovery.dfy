/** The recovery tick: list the sagas that are not done, then re-send one command for each. */
module Recovery {
  import opened SagaTypes
  import opened Protocol
  import opened Accounting
  import opened Invariant
  import opened StockSafety
  import opened Progress
  import opened Safety
  import opened Network
  import opened Cluster

  /** What one listing led to, row by row: the command composed for the row, and whether it arrived. */
  datatype Sweep = Sweep(rows: seq<SagaRow>, commands: seq<Option<Payload>>, arrived: seq<bool>)

  // ---------------------------------------------------------------- the worker's own steps in a tick

  lemma FirstOwn(trace: seq<Action>, batch: seq<Action>, wk: WorkerId, steps: seq<Action>, others: seq<Action>)
    requires OfOthers(batch, wk)
    requires Own(trace, wk) == Own([], wk) + steps && Theirs(trace, wk) == Theirs([], wk) + others
    ensures Own(trace + batch, wk) == steps && Theirs(trace + batch, wk) == others + batch
  {
    NoOwn(trace, batch, wk);
  }

  function Resends(wk: WorkerId, arrived: seq<bool>): seq<Action> {
    seq(|arrived|, i requires 0 <= i < |arrived| => ResendNext(wk, arrived[i]))
  }

  /** The worker's own steps for one listing: the query, one step per row, and the end of the loop; nothing
      if the query failed. */
  ghost function SweepSteps(wk: WorkerId, status: SagaStatus, listing: seq<Uuid>, arrived: seq<bool>, fault: bool): seq<Action> {
    if fault then [] else [ListSagas(wk, status, listing)] + Resends(wk, arrived) + [ResendNext(wk, false)]
  }

  /** What others do before each of the first n rows is handled. */
  ghost function RowBatches(env: nat -> Gap, n: nat): seq<Action> {
    if n == 0 then [] else RowBatches(env, n - 1) + env(n - 1).others
  }

  lemma ListStep(w: World, wk: WorkerId, status: SagaStatus, listing: seq<Uuid>)
    requires Idle(w, wk) && (status == InProgress || status == Compensating) && IsListing(w.db, status, listing)
    ensures Next(w, ListSagas(wk, status, listing)) == Assign(w, wk, Recover(Snapshots(w.db, listing)))
  {
  }

  lemma ResendStep(w: World, wk: WorkerId, todo: seq<SagaRow>, delivered: bool)
    requires Idle(w, wk) && todo != []
    ensures var c := RecoveryCommand(w.db, todo[0]);
            Next(Assign(w, wk, Recover(todo)), ResendNext(wk, delivered))
            == Assign(if c.None? || !delivered then w else Send(w, c.value), wk, Recover(todo[1..]))
  {
  }

  lemma EndStep(w: World, wk: WorkerId)
    requires Idle(w, wk)
    ensures Next(Assign(w, wk, Recover([])), ResendNext(wk, false)) == w
  {
    Dropped(w, wk, Recover([]));
  }

  // ---------------------------------------------------------------- what a stale row still says

  /** The command for a listed row does not depend on how late it is composed. */
  lemma {:induction false} CommandFixed(w: World, actions: seq<Action>, row: SagaRow)
    requires Consistent(w) && row.state.orderId in w.db.orders
    ensures row.state.orderId in Exec(w, actions).db.orders
    ensures RecoveryCommand(Exec(w, actions).db, row) == RecoveryCommand(w.db, row)
  {
    OrderFixed(w, actions, row.state.orderId);
  }

  /** In a consistent world every row that a listing returns has a command. */
  lemma ListedHasCommand(w: World, s: Uuid)
    requires Consistent(w) && s in w.db.sagas
    requires w.db.sagas[s].status == InProgress || w.db.sagas[s].status == Compensating
    ensures w.db.sagas[s].orderId in w.db.orders
    ensures RecoveryCommand(w.db, SagaRow(s, w.db.sagas[s])).Some?
  {
    assert RowOk(w.db.sagas[s], w.db.orders[w.db.sagas[s].orderId].status, Moves(w, s));
  }

  class RecoveryLoop {
    const sys: System

    constructor (system: System)
      ensures sys == system
    {
      sys := system;
    }

    method RecoverInProgress(row: SagaRow) returns (command: Option<Payload>)
      requires row.state.status == InProgress
      ensures command == RecoveryCommand(sys.orderDb.View(), row)
    {
      var order := sys.orderDb.GetByID(row.state.orderId);
      if order.None? {
        return None;
      }
      match row.state.step {
        case ReservingInventory =>
          command := Some(ReserveInventoryCmd(row.sagaId, row.state.orderId, order.value.productId, order.value.quantity));
        case ProcessingPayment =>
          command := Some(ProcessPaymentCmd(row.sagaId, row.state.orderId, order.value.totalAmount));
        case _ =>
          command := None;
      }
    }

    method RecoverCompensating(row: SagaRow) returns (command: Option<Payload>)
      requires row.state.status == Compensating
      ensures command == RecoveryCommand(sys.orderDb.View(), row)
    {
      if row.state.step != ReleasingInventory {
        return None;
      }
      var order := sys.orderDb.GetByID(row.state.orderId);
      if order.None? {
        return None;
      }
      command := Some(ReleaseInventoryCmd(row.sagaId, row.state.orderId, order.value.productId, order.value.quantity));
    }

    /** Composes and publishes the command of the next row; a database fault skips the row. */
    method ResendOne(wk: WorkerId, todo: seq<SagaRow>, gap: Gap, attempts: nat -> Attempt, ghost start: World,
                     ghost begun: seq<Action>)
      returns (command: Option<Payload>, arrived: bool, ghost trace: seq<Action>)
      requires todo != [] && (todo[0].state.status == InProgress || todo[0].state.status == Compensating)
      requires Idle(sys.World(), wk) && OfOthers(gap.others, wk)
      requires sys.During(wk, Recover(todo)) == Exec(start, begun)
      modifies sys.Parts()
      ensures Idle(sys.World(), wk) && sys.During(wk, Recover(todo[1..])) == Exec(start, trace)
      ensures trace == begun + gap.others + [ResendNext(wk, arrived)]
      ensures command == if gap.fault then None else RecoveryCommand(sys.World().db, todo[0])
      ensures arrived == (command.Some? && Arrives(attempts))
      ensures arrived ==> exists m :: m in sys.World().net && m.body == command.value && old(sys.World()).nextId <= m.id
    {
      ghost var before := sys.World();
      trace := sys.Others(wk, gap.others, Recover(todo), start, begun);
      ghost var w := sys.World();
      IdsGrow(before, gap.others);
      command, arrived := None, false;
      if !gap.fault {
        if todo[0].state.status == InProgress {
          command := RecoverInProgress(todo[0]);
        } else {
          command := RecoverCompensating(todo[0]);
        }
      }
      if command.Some? {
        var confirmed: bool;
        confirmed, arrived := sys.pub.Publish(command.value, attempts);
        if arrived {
          assert Message(w.nextId, command.value) in sys.World().net;
        }
      }
      ResendStep(w, wk, todo, arrived);
      ExecSnoc(start, trace, ResendNext(wk, arrived));
      trace := trace + [ResendNext(wk, arrived)];
    }

    /** The loop over the rows that were listed in world w. */
    method ResendAll(wk: WorkerId, rows: seq<SagaRow>, env: nat -> Gap, attempts: nat -> (nat -> Attempt),
                     ghost w: World, ghost start: World, ghost listed: seq<Action>)
      returns (commands: seq<Option<Payload>>, arrived: seq<bool>, ghost trace: seq<Action>)
      requires Idle(sys.World(), wk) && OthersOnly(env, wk) && sys.During(wk, Recover(rows)) == Exec(start, listed)
      requires ListedAt(w, rows, start, listed)
      modifies sys.Parts()
      ensures Idle(sys.World(), wk) && sys.During(wk, Recover([])) == Exec(start, trace)
      ensures SweptSoFar(w, rows, commands, arrived, env, attempts, wk, listed, trace)
    {
      commands, arrived, trace := [], [], listed;
      while |arrived| < |rows|
        invariant |arrived| <= |rows| && Idle(sys.World(), wk)
        invariant sys.During(wk, Recover(rows[|arrived|..])) == Exec(start, trace)
        invariant SweptSoFar(w, rows[..|arrived|], commands, arrived, env, attempts, wk, listed, trace)
      {
        var i := |arrived|;
        assert RowIn(w, rows[i]);
        var command, sent;
        ghost var sofar := trace;
        command, sent, trace := ResendOne(wk, rows[i..], env(i), attempts(i), start, trace);
        OneMore(w, rows, commands, arrived, env, attempts, wk, start, listed, sofar, trace, command, sent);
        commands, arrived := commands + [command], arrived + [sent];
      }
      assert rows[|arrived|..] == [] && rows[..|arrived|] == rows;
    }

    /** Lists the sagas of one status and re-sends a command for each row, while others run. */
    method RunSweep(wk: WorkerId, status: SagaStatus, fault: bool, env: nat -> Gap, attempts: nat -> (nat -> Attempt),
                    ghost start: World, ghost begun: seq<Action>)
      returns (sweep: Sweep, listing: seq<Uuid>, ghost trace: seq<Action>)
      requires status == InProgress || status == Compensating
      requires Idle(sys.World(), wk) && OthersOnly(env, wk) && sys.World() == Exec(start, begun)
      modifies sys.Parts()
      ensures Idle(sys.World(), wk) && sys.World() == Exec(start, trace) && begun <= trace
      ensures if fault then sweep == Sweep([], [], []) && trace == begun
              else Swept(old(sys.World()), status, listing, sweep, env, attempts)
      ensures Own(trace, wk) == Own(begun, wk) + SweepSteps(wk, status, listing, sweep.arrived, fault)
      ensures Theirs(trace, wk) == Theirs(begun, wk) + RowBatches(env, |sweep.arrived|)
    {
      sweep, listing, trace := Sweep([], [], []), [], begun;
      if fault {
        return;
      }
      ghost var w := sys.World();
      listing := sys.orderDb.ListByStatus(status);
      var rows := Snapshots(sys.orderDb.View(), listing);
      SweepBegins(w, wk, status, listing, start, begun);
      var commands, arrived;
      commands, arrived, trace := ResendAll(wk, rows, env, attempts, w, start, begun + [ListSagas(wk, status, listing)]);
      SweepEnds(sys.World(), wk, start, begun, status, listing, rows, commands, arrived, env, attempts, w, trace);
      trace := trace + [ResendNext(wk, false)];
      sweep := Sweep(rows, commands, arrived);
    }

    /** One tick: the IN_PROGRESS listing, then, even if that failed, the COMPENSATING listing. */
    method RunRecovery(wk: WorkerId, fault: bool, env: nat -> Gap, attempts: nat -> (nat -> Attempt),
                       between: seq<Action>,
                       fault': bool, env': nat -> Gap, attempts': nat -> (nat -> Attempt))
      returns (inProgress: Sweep, compensating: Sweep, ghost trace: seq<Action>, ghost listing: seq<Uuid>,
               ghost listing': seq<Uuid>, ghost middle: nat)
      requires Idle(sys.World(), wk) && OthersOnly(env, wk) && OfOthers(between, wk) && OthersOnly(env', wk)
      modifies sys.Parts()
      ensures Idle(sys.World(), wk) && sys.World() == Exec(old(sys.World()), trace) && middle <= |trace|
      ensures !fault ==> Swept(old(sys.World()), InProgress, listing, inProgress, env, attempts)
      ensures !fault' ==> Swept(Exec(old(sys.World()), trace[..middle]), Compensating, listing', compensating, env', attempts')
      ensures Own(trace[..middle], wk) == SweepSteps(wk, InProgress, listing, inProgress.arrived, fault)
      ensures Own(trace, wk) == Own(trace[..middle], wk) + SweepSteps(wk, Compensating, listing', compensating.arrived, fault')
      ensures Theirs(trace[..middle], wk) == RowBatches(env, |inProgress.arrived|) + between
      ensures Theirs(trace, wk) == Theirs(trace[..middle], wk) + RowBatches(env', |compensating.arrived|)
    {
      ghost var start := sys.World();
      inProgress, listing, trace := RunSweep(wk, InProgress, fault, env, attempts, start, []);
      FirstOwn(trace, between, wk, SweepSteps(wk, InProgress, listing, inProgress.arrived, fault),
               RowBatches(env, |inProgress.arrived|));
      trace := sys.Elsewhere(wk, between, start, trace);
      ghost var before := trace;
      middle := |trace|;
      compensating, listing', trace := RunSweep(wk, Compensating, fault', env', attempts', start, trace);
      assert trace[..middle] == before;
    }
  }

  /** A tick covers every saga of the listed status exactly once, with the command of its step. */
  lemma {:induction false} TickCovers(w: World, status: SagaStatus, listing: seq<Uuid>, sweep: Sweep, env: nat -> Gap,
                   attempts: nat -> (nat -> Attempt), s: Uuid) returns (i: nat)
    requires Consistent(w) && Swept(w, status, listing, sweep, env, attempts)
    requires s in w.db.sagas && w.db.sagas[s].status == status
    ensures i < |sweep.rows| == |sweep.commands| == |sweep.arrived| && sweep.rows[i] == SagaRow(s, w.db.sagas[s])
    ensures !env(i).fault ==> sweep.commands[i] == CommandFor(w, s) && CommandFor(w, s).Some?
    ensures !env(i).fault && Arrives(attempts(i)) ==> sweep.arrived[i]
    ensures forall j :: 0 <= j < |sweep.rows| && j != i ==>
              sweep.rows[j].sagaId != s && (sweep.commands[j].Some? ==> sweep.commands[j].value.sagaId != s)
  {
    assert s in listing;
    i :| 0 <= i < |listing| && listing[i] == s;
    assert RowSwept(w, sweep.rows[i], sweep.commands[i], sweep.arrived[i], env(i), attempts(i));
    forall j | 0 <= j < |sweep.rows| && j != i
      ensures sweep.rows[j].sagaId != s && (sweep.commands[j].Some? ==> sweep.commands[j].value.sagaId != s)
    {
      assert RowSwept(w, sweep.rows[j], sweep.commands[j], sweep.arrived[j], env(j), attempts(j));
    }
  }

  lemma SweepEnds(w: World, wk: WorkerId, start: World, begun: seq<Action>, status: SagaStatus, listing: seq<Uuid>,
                  rows: seq<SagaRow>, commands: seq<Option<Payload>>, arrived: seq<bool>, env: nat -> Gap,
                  attempts: nat -> (nat -> Attempt), w0: World, trace: seq<Action>)
    requires Idle(w, wk) && Assign(w, wk, Recover([])) == Exec(start, trace)
    requires SweptSoFar(w0, rows, commands, arrived, env, attempts, wk, begun + [ListSagas(wk, status, listing)], trace)
    ensures w == Exec(start, trace + [ResendNext(wk, false)])
    ensures Own(trace + [ResendNext(wk, false)], wk) == Own(begun, wk) + SweepSteps(wk, status, listing, arrived, false)
    ensures Theirs(trace + [ResendNext(wk, false)], wk) == Theirs(begun, wk) + RowBatches(env, |arrived|)
  {
    SweepEndsIdle(w, wk, start, trace);
    StepsEnd(wk, begun, status, listing, trace, arrived, env);
  }

  lemma SweepEndsIdle(w: World, wk: WorkerId, start: World, trace: seq<Action>)
    requires Idle(w, wk) && Assign(w, wk, Recover([])) == Exec(start, trace)
    ensures w == Exec(start, trace + [ResendNext(wk, false)])
  {
    EndStep(w, wk);
    ExecSnoc(start, trace, ResendNext(wk, false));
  }

  lemma SweepBegins(w: World, wk: WorkerId, status: SagaStatus, listing: seq<Uuid>, start: World, begun: seq<Action>)
    requires w == Exec(start, begun) && Idle(w, wk) && (status == InProgress || status == Compensating)
    requires IsListing(w.db, status, listing)
    ensures var listed := begun + [ListSagas(wk, status, listing)];
            && Exec(start, listed) == Assign(w, wk, Recover(Snapshots(w.db, listing)))
            && ListedAt(w, Snapshots(w.db, listing), start, listed)
  {
    ListStep(w, wk, status, listing);
    ExecSnoc(start, begun, ListSagas(wk, status, listing));
    if Consistent(w) {
      StepConsistent(w, ListSagas(wk, status, listing));
    }
    forall i | 0 <= i < |listing| ensures RowIn(w, Snapshots(w.db, listing)[i]) {
      assert listing[i] in listing;
    }
  }

  /** The rows were listed in world w, by the last step of the run so far. */
  ghost predicate ListedAt(w: World, rows: seq<SagaRow>, start: World, listed: seq<Action>) {
    true == (
      && (forall i :: 0 <= i < |rows| ==> RowIn(w, rows[i]))
      && Exec(start, listed).db == w.db
      && (Consistent(w) ==> Consistent(Exec(start, listed))))
  }

  /** A row as a listing in world w shows it. */
  predicate RowIn(w: World, row: SagaRow) {
    && row.sagaId in w.db.sagas && w.db.sagas[row.sagaId] == row.state
    && (row.state.status == InProgress || row.state.status == Compensating)
  }

  /** One row of a sweep over a database listed in world w: unless reading the order failed, the command
      is the one that w determines, and it was put on the network once or not at all. */
  ghost predicate RowSwept(w: World, row: SagaRow, command: Option<Payload>, arrived: bool, gap: Gap,
                           attempts: nat -> Attempt)
  {
    true == (
      && arrived == (command.Some? && Arrives(attempts))
      && (Consistent(w) ==> RecoveryCommand(w.db, row).Some?
                            && command == if gap.fault then None else RecoveryCommand(w.db, row)))
  }

  ghost predicate RowsSwept(w: World, rows: seq<SagaRow>, commands: seq<Option<Payload>>, arrived: seq<bool>,
                            env: nat -> Gap, attempts: nat -> (nat -> Attempt))
  {
    true == (
      && |commands| == |rows| && |arrived| == |rows|
      && (forall j :: 0 <= j < |rows| ==> RowSwept(w, rows[j], commands[j], arrived[j], env(j), attempts(j))))
  }

  ghost predicate SweptSoFar(w: World, rows: seq<SagaRow>, commands: seq<Option<Payload>>, arrived: seq<bool>,
                             env: nat -> Gap, attempts: nat -> (nat -> Attempt), wk: WorkerId, listed: seq<Action>,
                             trace: seq<Action>)
  {
    true == (
      && RowsSwept(w, rows, commands, arrived, env, attempts)
      && StepsSoFar(wk, listed, trace, arrived, env))
  }

  /** Since the listing the worker took one step per row, and the others those of the gap before each. */
  ghost predicate StepsSoFar(wk: WorkerId, listed: seq<Action>, trace: seq<Action>, arrived: seq<bool>, env: nat -> Gap) {
    true == (
      && listed <= trace && Own(trace, wk) == Own(listed, wk) + Resends(wk, arrived)
      && Theirs(trace, wk) == Theirs(listed, wk) + RowBatches(env, |arrived|))
  }

  lemma StepsMore(wk: WorkerId, listed: seq<Action>, before: seq<Action>, arrived: seq<bool>, env: nat -> Gap, sent: bool)
    requires OthersOnly(env, wk) && StepsSoFar(wk, listed, before, arrived, env)
    ensures StepsSoFar(wk, listed, before + env(|arrived|).others + [ResendNext(wk, sent)], arrived + [sent], env)
  {
    OwnTurn(before, env(|arrived|).others, wk, sent);
    ResendsSnoc(wk, arrived, sent);
  }

  lemma StepsEnd(wk: WorkerId, begun: seq<Action>, status: SagaStatus, listing: seq<Uuid>, trace: seq<Action>,
                 arrived: seq<bool>, env: nat -> Gap)
    requires StepsSoFar(wk, begun + [ListSagas(wk, status, listing)], trace, arrived, env)
    ensures Own(trace + [ResendNext(wk, false)], wk) == Own(begun, wk) + SweepSteps(wk, status, listing, arrived, false)
    ensures Theirs(trace + [ResendNext(wk, false)], wk) == Theirs(begun, wk) + RowBatches(env, |arrived|)
  {
    OwnStep(trace, ResendNext(wk, false), wk);
    OwnStep(begun, ListSagas(wk, status, listing), wk);
    Regrouped(Own(begun, wk), [ListSagas(wk, status, listing)], Resends(wk, arrived), [ResendNext(wk, false)]);
  }

  lemma Regrouped(a: seq<Action>, b: seq<Action>, c: seq<Action>, d: seq<Action>)
    ensures a + b + c + d == a + (b + c + d)
  {
  }

  lemma OneMore(w: World, rows: seq<SagaRow>, commands: seq<Option<Payload>>, arrived: seq<bool>, env: nat -> Gap,
                attempts: nat -> (nat -> Attempt), wk: WorkerId, start: World, listed: seq<Action>, before: seq<Action>,
                trace: seq<Action>, command: Option<Payload>, sent: bool)
    requires ListedAt(w, rows, start, listed) && OthersOnly(env, wk)
    requires |arrived| < |rows|
    requires SweptSoFar(w, rows[..|arrived|], commands, arrived, env, attempts, wk, listed, before)
    requires trace == before + env(|arrived|).others + [ResendNext(wk, sent)]
    requires command == if env(|arrived|).fault then None else RecoveryCommand(Exec(start, trace).db, rows[|arrived|])
    requires sent == (command.Some? && Arrives(attempts(|arrived|)))
    ensures SweptSoFar(w, rows[..|arrived| + 1], commands + [command], arrived + [sent], env, attempts, wk, listed, trace)
  {
    var i := |arrived|;
    StepsMore(wk, listed, before, arrived, env, sent);
    RowDone(w, start, listed, trace, rows, i, command, sent, env(i), attempts(i));
    RowsSweptSnoc(w, rows[..i], commands, arrived, env, attempts, rows[i], command, sent);
    assert rows[..i + 1] == rows[..i] + [rows[i]];
  }

  lemma RowsSweptSnoc(w: World, rows: seq<SagaRow>, commands: seq<Option<Payload>>, arrived: seq<bool>, env: nat -> Gap,
                      attempts: nat -> (nat -> Attempt), row: SagaRow, command: Option<Payload>, sent: bool)
    requires RowsSwept(w, rows, commands, arrived, env, attempts)
    requires RowSwept(w, row, command, sent, env(|rows|), attempts(|rows|))
    ensures RowsSwept(w, rows + [row], commands + [command], arrived + [sent], env, attempts)
  {
  }

  lemma ResendsSnoc(wk: WorkerId, arrived: seq<bool>, sent: bool)
    ensures Resends(wk, arrived + [sent]) == Resends(wk, arrived) + [ResendNext(wk, sent)]
  {
  }

  /** All rows of a listing were swept, in order. */
  ghost predicate Swept(w: World, status: SagaStatus, listing: seq<Uuid>, sweep: Sweep, env: nat -> Gap,
                        attempts: nat -> (nat -> Attempt))
  {
    true == (
      && IsListing(w.db, status, listing) && sweep.rows == Snapshots(w.db, listing)
      && RowsSwept(w, sweep.rows, sweep.commands, sweep.arrived, env, attempts))
  }

  lemma OwnTurn(trace: seq<Action>, others: seq<Action>, wk: WorkerId, sent: bool)
    requires OfOthers(others, wk)
    ensures Own(trace + others + [ResendNext(wk, sent)], wk) == Own(trace, wk) + [ResendNext(wk, sent)]
    ensures Theirs(trace + others + [ResendNext(wk, sent)], wk) == Theirs(trace, wk) + others
  {
    OwnStep(trace + others, ResendNext(wk, sent), wk);
    NoOwn(trace, others, wk);
  }

  /** Composed late in the tick, the command is still the one of the listing. */
  lemma LateCommand(w: World, listed: World, actions: seq<Action>, row: SagaRow)
    requires RowIn(w, row) && listed.db == w.db && Consistent(listed)
    ensures RecoveryCommand(w.db, row).Some? && RecoveryCommand(Exec(listed, actions).db, row) == RecoveryCommand(w.db, row)
  {
    ListedHasCommand(listed, row.sagaId);
    CommandFixed(listed, actions, row);
  }

  lemma RowDone(w: World, start: World, listed: seq<Action>, trace: seq<Action>, rows: seq<SagaRow>, i: nat,
                command: Option<Payload>, sent: bool, gap: Gap, attempts: nat -> Attempt)
    requires ListedAt(w, rows, start, listed) && i < |rows| && listed <= trace
    requires command == if gap.fault then None else RecoveryCommand(Exec(start, trace).db, rows[i])
    requires sent == (command.Some? && Arrives(attempts))
    ensures RowSwept(w, rows[i], command, sent, gap, attempts)
  {
    assert trace == listed + trace[|listed|..];
    ExecConcat(start, listed, trace[|listed|..]);
    if Consistent(w) {
      LateCommand(w, Exec(start, listed), trace[|listed|..], rows[i]);
    }
  }
}
