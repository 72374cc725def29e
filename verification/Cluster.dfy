/** The running system: the stores of the three services, the network, and the workers in the middle of
    a handler.  `World()` reads it as a state of the protocol. */
module Cluster {
  import opened SagaTypes
  import opened Protocol
  import opened Accounting
  import opened OptimisticLock
  import opened OrderStore
  import opened InventoryStore
  import opened PaymentStore
  import opened Network

  /** What happens just before a step of a handler: others run, and the database call may fail. */
  datatype Gap = Gap(others: seq<Action>, fault: bool)

  ghost predicate OthersOnly(env: nat -> Gap, wk: WorkerId) {
    forall i: nat :: OfOthers(env(i).others, wk)
  }

  /** One of the database calls up to number `last` fails. */
  predicate Faulty(env: nat -> Gap, last: nat) {
    exists i | 0 <= i <= last :: env(i).fault
  }

  /** How a handler ends: its message reached the network, or it did not. */
  function LastStep(wk: WorkerId, attempts: nat -> Attempt): Action {
    if Arrives(attempts) then Publish(wk) else Crash(wk)
  }

  class System {
    const orderDb: OrderTables
    const inventory: InventoryTables
    const payments: PaymentTables
    const pub: Publisher
    const maxRetries: nat
    var tasks: map<WorkerId, Task>
    var hist: map<Uuid, seq<Uuid>>
    var terminals: multiset<TerminalRecord>
    var supplied: map<ProductId, int>

    constructor (reserveMaxRetries: nat)
      ensures World() == Init(reserveMaxRetries)
      ensures fresh(Parts())
    {
      orderDb := new OrderTables();
      inventory := new InventoryTables();
      payments := new PaymentTables();
      pub := new Publisher();
      maxRetries := reserveMaxRetries;
      tasks, hist, terminals, supplied := map[], map[], multiset{}, map[];
    }

    ghost function Parts(): set<object> {
      {this, orderDb, inventory, payments, pub}
    }

    function World(): World
      reads Parts()
    {
      Protocol.World(orderDb.View(), inventory.View(), payments.View(), pub.net, tasks, pub.nextId, maxRetries,
                     hist, terminals, supplied)
    }

    /** The protocol state while worker wk, whose local variables amount to task t, is running. */
    ghost function During(wk: WorkerId, t: Task): World
      reads Parts()
    {
      Assign(World(), wk, t)
    }

    method Become(w: World)
      requires w.maxRetries == maxRetries
      modifies Parts()
      ensures World() == w
    {
      orderDb.orders, orderDb.sagas := w.db.orders, w.db.sagas;
      orderDb.byOrder, orderDb.processed := w.db.byOrder, w.db.processed;
      inventory.rows, inventory.logs := w.inv.rows, w.inv.logs;
      payments.payments, payments.processed := w.pay.payments, w.pay.processed;
      pub.net, pub.nextId := w.net, w.nextId;
      tasks, hist, terminals, supplied := w.tasks, w.hist, w.terminals, w.supplied;
    }

    /** Other workers and the environment run while worker wk stands between two steps. */
    method Others(wk: WorkerId, batch: seq<Action>, ghost t: Task, ghost start: World, ghost trace: seq<Action>)
      returns (ghost trace': seq<Action>)
      requires Idle(World(), wk) && OfOthers(batch, wk) && During(wk, t) == Exec(start, trace)
      modifies Parts()
      ensures World() == Exec(old(World()), batch)
      ensures Idle(World(), wk) && trace' == trace + batch && During(wk, t) == Exec(start, trace')
      ensures Own(trace', wk) == Own(trace, wk) && Theirs(trace', wk) == Theirs(trace, wk) + batch
    {
      NoOwn(trace, batch, wk);
      RunUnseen(World(), batch, wk, t);
      ExecConcat(start, trace, batch);
      RunBudget(World(), batch);
      trace' := trace + batch;
      Become(Exec(World(), batch));
    }

    /** Others run while worker wk holds nothing. */
    method Elsewhere(wk: WorkerId, batch: seq<Action>, ghost start: World, ghost trace: seq<Action>)
      returns (ghost trace': seq<Action>)
      requires Idle(World(), wk) && OfOthers(batch, wk) && World() == Exec(start, trace)
      modifies Parts()
      ensures Idle(World(), wk) && trace' == trace + batch && World() == Exec(start, trace')
      ensures Own(trace', wk) == Own(trace, wk) && Theirs(trace', wk) == Theirs(trace, wk) + batch
    {
      NoOwn(trace, batch, wk);
      RunUnseen(World(), batch, wk, Recover([]));
      ExecConcat(start, trace, batch);
      RunBudget(World(), batch);
      trace' := trace + batch;
      Become(Exec(World(), batch));
    }

    /** The last step of a handler: publish the message, then forget the local variables. */
    method Finally(wk: WorkerId, body: Payload, attempts: nat -> Attempt, ghost start: World, ghost trace: seq<Action>)
      returns (ok: bool, ghost trace': seq<Action>)
      requires Idle(World(), wk) && During(wk, Pub(body)) == Exec(start, trace)
      modifies Parts()
      ensures Idle(World(), wk) && World() == Exec(start, trace')
      ensures trace' == trace + [LastStep(wk, attempts)]
      ensures Own(trace', wk) == Own(trace, wk) + [LastStep(wk, attempts)] && Theirs(trace', wk) == Theirs(trace, wk)
      ensures ok == Acknowledged(attempts)
      ensures World().inv == old(World()).inv && World().db == old(World()).db && World().pay == old(World()).pay
      ensures ok ==> Message(old(World()).nextId, body) in World().net
    {
      var arrived: bool;
      var w := World();
      ok, arrived := pub.Publish(body, attempts);
      trace' := trace + [LastStep(wk, attempts)];
      OwnStep(trace, LastStep(wk, attempts), wk);
      ExecSnoc(start, trace, LastStep(wk, attempts));
      Dropped(w, wk, Pub(body));
    }

    /** Others run once more, then the reply is published. */
    method Reply(wk: WorkerId, body: Payload, gap: Gap, attempts: nat -> Attempt, ghost start: World,
                 ghost trace: seq<Action>)
      returns (ok: bool, ghost trace': seq<Action>)
      requires Idle(World(), wk) && OfOthers(gap.others, wk) && During(wk, Pub(body)) == Exec(start, trace)
      modifies Parts()
      ensures Replied(start, World(), trace, trace', wk, body, gap.others, attempts, ok)
    {
      ghost var now := During(wk, Pub(body));
      ghost var mid := Others(wk, gap.others, Pub(body), start, trace);
      IdsGrow(start, mid);
      ghost var w := World();
      ok, trace' := Finally(wk, body, attempts, start, mid);
      assert trace' == trace + trace'[|trace|..];
      ExecConcat(start, trace, trace'[|trace|..]);
      RunLogsGrow(now, trace'[|trace|..]);
      if ok {
        assert Message(w.nextId, body) in World().net;
      }
    }
  }

  /** What a reply leaves behind: the run goes on from `before` by the others' steps and the publish. */
  ghost predicate Replied(start: World, end: World, before: seq<Action>, trace: seq<Action>, wk: WorkerId, body: Payload,
                          others: seq<Action>, attempts: nat -> Attempt, ok: bool)
  {
    true == (
      && Idle(end, wk) && end == Exec(start, trace)
      && before <= trace && end == Exec(Exec(start, before), trace[|before|..])
      && Exec(start, before).inv.logs <= end.inv.logs
      && Own(trace, wk) == Own(before, wk) + [LastStep(wk, attempts)] && Theirs(trace, wk) == Theirs(before, wk) + others
      && ok == Acknowledged(attempts) && (ok ==> Answered(start, end, body)))
  }

  /** A message with this body and an id that is new since w is on the network. */
  ghost predicate Answered(w: World, w': World, body: Payload) {
    exists m :: m in w'.net && m.body == body && w.nextId <= m.id
  }

  /** An error between two steps: the local variables are forgotten. */
  lemma GivenUp(w: World, wk: WorkerId, t: Task, start: World, trace: seq<Action>)
    requires Idle(w, wk) && Assign(w, wk, t) == Exec(start, trace)
    ensures Exec(start, trace + [Crash(wk)]) == w
  {
    ExecSnoc(start, trace, Crash(wk));
    Dropped(w, wk, t);
  }

  // ---------------------------------------------------------------- whose steps a run is made of

  predicate IsOwn(a: Action, wk: WorkerId) { a.Worker() == Some(wk) }

  /** The steps of worker wk in a run, in order. */
  ghost function Own(trace: seq<Action>, wk: WorkerId): seq<Action> {
    if trace == [] then []
    else Own(trace[..|trace| - 1], wk) + (if IsOwn(trace[|trace| - 1], wk) then [trace[|trace| - 1]] else [])
  }

  /** The steps of everyone else. */
  ghost function Theirs(trace: seq<Action>, wk: WorkerId): seq<Action> {
    if trace == [] then []
    else Theirs(trace[..|trace| - 1], wk) + (if IsOwn(trace[|trace| - 1], wk) then [] else [trace[|trace| - 1]])
  }

  /** What others do in the gaps 1 to n of a call. */
  ghost function Batches(env: nat -> Gap, n: nat): seq<Action> {
    if n == 0 then [] else Batches(env, n - 1) + env(n).others
  }

  /** The others in a run are those of the first gaps of the call, at most `limit` of them, in order: the
      handler adds no step of anyone else. */
  ghost predicate OthersFrom(trace: seq<Action>, wk: WorkerId, env: nat -> Gap, limit: nat) {
    exists n: nat :: n <= limit && Theirs(trace, wk) == Batches(env, n)
  }

  lemma OwnStep(trace: seq<Action>, a: Action, wk: WorkerId)
    requires IsOwn(a, wk)
    ensures Own(trace + [a], wk) == Own(trace, wk) + [a] && Theirs(trace + [a], wk) == Theirs(trace, wk)
  {
    assert (trace + [a])[..|trace|] == trace;
  }

  lemma {:induction false} NoOwn(trace: seq<Action>, batch: seq<Action>, wk: WorkerId)
    requires OfOthers(batch, wk)
    ensures Own(trace + batch, wk) == Own(trace, wk) && Theirs(trace + batch, wk) == Theirs(trace, wk) + batch
    decreases |batch|
  {
    if batch == [] {
      assert trace + batch == trace;
    } else {
      NoOwn(trace, batch[..|batch| - 1], wk);
      assert (trace + batch)[..|trace + batch| - 1] == trace + batch[..|batch| - 1];
    }
  }

  // ---------------------------------------------------------------- what others cannot see

  predicate OfOthers(batch: seq<Action>, wk: WorkerId) {
    forall i | 0 <= i < |batch| :: batch[i].Worker() != Some(wk)
  }

  lemma Dropped(w: World, wk: WorkerId, t: Task)
    requires Idle(w, wk)
    ensures Finish(Assign(w, wk, t), wk) == w
  {
    assert w.tasks[wk := t] - {wk} == w.tasks;
  }

  /** Assigning to one worker and assigning to or finishing another commute. */
  lemma Commute(tasks: map<WorkerId, Task>, wk: WorkerId, t: Task, x: WorkerId)
    requires x != wk
    ensures forall u: Task {:trigger tasks[wk := t][x := u]} :: tasks[wk := t][x := u] == tasks[x := u][wk := t]
    ensures tasks[wk := t] - {x} == (tasks - {x})[wk := t]
  {
  }

  /** What a worker has still to do is invisible to a step of anyone else. */
  ghost predicate Unseen(w: World, a: Action, wk: WorkerId, t: Task) {
    Next(Assign(w, wk, t), a) == Assign(Next(w, a), wk, t)
  }

  lemma {:induction false} StepUnseen(w: World, a: Action, wk: WorkerId, t: Task)
    requires Idle(w, wk) && a.Worker() != Some(wk)
    ensures Unseen(w, a, wk, t) && Idle(Next(w, a), wk)
  {
    OtherTasksKept(w, a, wk);
    if a.Worker().None? {
      EnvironmentUnseen(w, a, wk, t);
    } else if a.StartSaga? {
      StartUnseen(w, a, wk, t);
    } else if a.HandleEvent? {
      EventUnseen(w, a, wk, t);
    } else if a.Publish? || a.Crash? {
      PublishUnseen(w, a, wk, t);
    } else if a.ListSagas? || a.ResendNext? {
      RecoveryUnseen(w, a, wk, t);
    } else if a.BeginReserve? || a.ReadStock? {
      ReserveUnseen(w, a, wk, t);
    } else if a.CasReserve? {
      CasUnseen(w, a, wk, t);
    } else if a.BeginRelease? {
      ReleaseUnseen(w, a, wk, t);
    } else if a.CommitRelease? {
      CommitUnseen(w, a, wk, t);
    } else if a.BeginPayment? || a.LookupPayment? {
      PaymentUnseen(w, a, wk, t);
    } else {
      InsertUnseen(w, a, wk, t);
    }
  }

  lemma EnvironmentUnseen(w: World, a: Action, wk: WorkerId, t: Task)
    requires a.Worker().None?
    ensures Unseen(w, a, wk, t)
  {
  }

  lemma StartUnseen(w: World, a: Action, wk: WorkerId, t: Task)
    requires Idle(w, wk) && a.StartSaga? && a.wk != wk
    ensures Unseen(w, a, wk, t)
  {
    Commute(w.tasks, wk, t, a.wk);
  }

  lemma EventUnseen(w: World, a: Action, wk: WorkerId, t: Task)
    requires Idle(w, wk) && a.HandleEvent? && a.wk != wk
    ensures Unseen(w, a, wk, t)
  {
    if Moving(w, a) {
      var r := React(w.db, a.m);
      EventFields(w, a, r);
      EventFields(Assign(w, wk, t), a, r);
      Commute(w.tasks, wk, t, a.wk);
    }
  }

  lemma PublishUnseen(w: World, a: Action, wk: WorkerId, t: Task)
    requires Idle(w, wk) && (a.Publish? || a.Crash?) && a.wk != wk
    ensures Unseen(w, a, wk, t)
  {
    Commute(w.tasks, wk, t, a.wk);
  }

  lemma RecoveryUnseen(w: World, a: Action, wk: WorkerId, t: Task)
    requires Idle(w, wk) && (a.ListSagas? || a.ResendNext?) && a.wk != wk
    ensures Unseen(w, a, wk, t)
  {
    Commute(w.tasks, wk, t, a.wk);
  }

  lemma ReserveUnseen(w: World, a: Action, wk: WorkerId, t: Task)
    requires Idle(w, wk) && (a.BeginReserve? || a.ReadStock?) && a.wk != wk
    ensures Unseen(w, a, wk, t)
  {
    Commute(w.tasks, wk, t, a.wk);
  }

  lemma CasUnseen(w: World, a: Action, wk: WorkerId, t: Task)
    requires Idle(w, wk) && a.CasReserve? && a.wk != wk
    ensures Unseen(w, a, wk, t)
  {
    Commute(w.tasks, wk, t, a.wk);
  }

  lemma ReleaseUnseen(w: World, a: Action, wk: WorkerId, t: Task)
    requires Idle(w, wk) && a.BeginRelease? && a.wk != wk
    ensures Unseen(w, a, wk, t)
  {
    Commute(w.tasks, wk, t, a.wk);
  }

  lemma CommitUnseen(w: World, a: Action, wk: WorkerId, t: Task)
    requires Idle(w, wk) && a.CommitRelease? && a.wk != wk
    ensures Unseen(w, a, wk, t)
  {
    Commute(w.tasks, wk, t, a.wk);
  }

  lemma PaymentUnseen(w: World, a: Action, wk: WorkerId, t: Task)
    requires Idle(w, wk) && (a.BeginPayment? || a.LookupPayment?) && a.wk != wk
    ensures Unseen(w, a, wk, t)
  {
    Commute(w.tasks, wk, t, a.wk);
  }

  lemma InsertUnseen(w: World, a: Action, wk: WorkerId, t: Task)
    requires Idle(w, wk) && a.InsertPayment? && a.wk != wk
    ensures Unseen(w, a, wk, t)
  {
    Commute(w.tasks, wk, t, a.wk);
  }

  lemma {:induction false} RunUnseen(w: World, batch: seq<Action>, wk: WorkerId, t: Task)
    requires Idle(w, wk) && OfOthers(batch, wk)
    ensures Exec(Assign(w, wk, t), batch) == Assign(Exec(w, batch), wk, t) && Idle(Exec(w, batch), wk)
    decreases |batch|
  {
    if batch != [] {
      var before := batch[..|batch| - 1];
      RunUnseen(w, before, wk, t);
      StepUnseen(Exec(w, before), batch[|batch| - 1], wk, t);
    }
  }
}
