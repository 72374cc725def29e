/** The three services and the network as one transition system.

    `World` holds the three databases, every message ever published, and one task per worker that is
    in the middle of a handler.  `Next` performs one atomic step: a database transaction, a read, a
    publish, or an environment event; an action that is not enabled leaves the world as it is.  A run
    is any sequence of actions.  Any message in `net` may be delivered at any time, any number of
    times or never, so loss, duplication, reordering, retry queues and redrives are all covered;
    `Crash` may strike between any two steps of a handler. */
module Protocol {
  import opened SagaTypes
  import opened OrderDatabase
  import opened InventoryDatabase
  import opened PaymentDatabase

  datatype SagaRow = SagaRow(sagaId: Uuid, state: SagaState)

  /** What a worker has still to do. */
  datatype Task =
    | Pub(body: Payload)                                        // publish, then acknowledge
    | ReserveLoop(cmd: Payload, attempt: nat)                   // about to read the inventory row
    | ReserveCas(cmd: Payload, attempt: nat, version: int)      // holds a snapshot of the row
    | ReleaseTxn(cmd: Payload)                                  // saw no RELEASE log
    | PayLookup(cmd: Payload, messageId: Uuid)                  // message id not processed yet
    | PayInsert(cmd: Payload, messageId: Uuid)                  // saw no payment row
    | Recover(todo: seq<SagaRow>)                               // rows listed but not yet re-sent

  datatype TerminalRecord = TerminalRecord(sagaId: Uuid, status: SagaStatus)

  /** The last three fields are history: the events that moved each saga, the terminal metric, and
      for each product the seeded stock plus all admin adjustments. */
  datatype World = World(
    db: OrderDb,
    inv: InventoryDb,
    pay: PaymentDb,
    net: set<Message>,
    tasks: map<WorkerId, Task>,
    nextId: Uuid,
    maxRetries: nat,
    hist: map<Uuid, seq<Uuid>>,
    terminals: multiset<TerminalRecord>,
    supplied: map<ProductId, int>)

  datatype Action =
    | CreateOrder(o: OrderId, productId: ProductId, quantity: int, amount: Amount)
    | CreateSku(p: ProductId, qty: int)
    | AdminPut(p: ProductId, qty: int)
    | PostPayment(o: OrderId, amount: Amount)
    | StartSaga(wk: WorkerId, o: OrderId)
    | HandleEvent(wk: WorkerId, m: Message, recorded: bool)
    | Publish(wk: WorkerId)
    | Crash(wk: WorkerId)
    | BeginReserve(wk: WorkerId, m: Message)
    | ReadStock(wk: WorkerId)
    | CasReserve(wk: WorkerId)
    | BeginRelease(wk: WorkerId, m: Message)
    | CommitRelease(wk: WorkerId, fault: bool, errorText: string)
    | BeginPayment(wk: WorkerId, m: Message)
    | LookupPayment(wk: WorkerId)
    | InsertPayment(wk: WorkerId, declined: bool)
    | ListSagas(wk: WorkerId, status: SagaStatus, listing: seq<Uuid>)
    | ResendNext(wk: WorkerId, delivered: bool)
  {
    /** The worker that takes the step, if it is a worker's step. */
    function Worker(): Option<WorkerId> {
      if CreateOrder? || CreateSku? || AdminPut? || PostPayment? then None else Some(wk)
    }
  }

  function Init(maxRetries: nat): World {
    World(OrderDb(map[], map[], map[], {}), InventoryDb(map[], []), PaymentDb(map[], {}),
          {}, map[], 0, maxRetries, map[], multiset{}, map[])
  }

  // ---------------------------------------------------------------- order service

  /** What the orchestrator does with an event: nothing, or a commit followed by at most one command
      or one terminal record. */
  datatype Reaction =
    | Ignored
    | Moved(db: OrderDb, command: Option<Payload>, terminal: Option<SagaStatus>)

  function React(db: OrderDb, m: Message): Reaction {
    var e := m.body;
    match e
    case InventoryReservedEvent(s, o, _, _, _, _) =>
      (match CommitReserved(db, m.id, e)
       case Rollback => Ignored
       case Commit(db', out) =>
         if out.skip then Ignored
         else if out.failed then Moved(db', None, Some(SagaFailed))
         else Moved(db', Some(ProcessPaymentCmd(s, o, out.amount)), None))
    case PaymentProcessedEvent(s, o, _, _, _) =>
      (match CommitPayment(db, m.id, e)
       case Rollback => Ignored
       case Commit(db', out) =>
         if out.skip then Ignored
         else if !out.compensate then Moved(db', None, Some(Completed))
         else Moved(db', Some(ReleaseInventoryCmd(s, o, out.productId, out.quantity)), None))
    case InventoryReleasedEvent(s, o, _, _, _, _) =>
      (match CommitReleased(db, m.id, e)
       case Rollback => Ignored
       case Commit(db', out) =>
         if out.skip then Ignored
         else if out.failed then Moved(db', None, Some(SagaFailed))
         else Moved(db', None, Some(SagaCompensated)))
    case _ => Ignored
  }

  /** The command that recovery re-sends for a row it listed. */
  function RecoveryCommand(db: OrderDb, row: SagaRow): Option<Payload> {
    var g := row.state;
    if g.orderId !in db.orders then None
    else
      var ord := db.orders[g.orderId];
      if g.status == InProgress && g.step == ReservingInventory then
        Some(ReserveInventoryCmd(row.sagaId, g.orderId, ord.productId, ord.quantity))
      else if g.status == InProgress && g.step == ProcessingPayment then
        Some(ProcessPaymentCmd(row.sagaId, g.orderId, ord.totalAmount))
      else if g.status == Compensating && g.step == ReleasingInventory then
        Some(ReleaseInventoryCmd(row.sagaId, g.orderId, ord.productId, ord.quantity))
      else None
  }

  /** SELECT * FROM saga_states WHERE status = ..., in whatever order the database returns it. */
  predicate IsListing(db: OrderDb, status: SagaStatus, listing: seq<Uuid>) {
    true == (
      && (forall i, j | 0 <= i < j < |listing| :: listing[i] != listing[j])
      && (forall s | s in listing :: s in db.sagas && db.sagas[s].status == status)
      && (forall s | s in db.sagas && db.sagas[s].status == status :: s in listing))
  }

  function Snapshots(db: OrderDb, listing: seq<Uuid>): (rows: seq<SagaRow>)
    requires forall s | s in listing :: s in db.sagas
  {
    seq(|listing|, i requires 0 <= i < |listing| => SagaRow(listing[i], db.sagas[listing[i]]))
  }

  // ---------------------------------------------------------------- replies of the workers

  function Reserved(cmd: Payload, success: bool, reason: string): Payload
    requires cmd.ReserveInventoryCmd?
  {
    InventoryReservedEvent(cmd.sagaId, cmd.orderId, cmd.productId, cmd.quantity, success, reason)
  }

  function Released(cmd: Payload, success: bool, reason: string): Payload
    requires cmd.ReleaseInventoryCmd?
  {
    InventoryReleasedEvent(cmd.sagaId, cmd.orderId, cmd.productId, cmd.quantity, success, reason)
  }

  function PaymentReply(cmd: Payload, row: Payment): Payload {
    var success := row.status == PaymentSuccess;
    PaymentProcessedEvent(cmd.sagaId, cmd.orderId, row.transactionId, success,
                          if success then "" else SIMULATED_FAILURE)
  }

  function Decimal(n: nat): string {
    (if n < 10 then "" else Decimal(n / 10)) + ["0123456789"[n % 10]]
  }

  function NotFound(p: ProductId): string {
    "product " + Decimal(p) + " not found"
  }

  /** Head of the retry loop of handleReserve. */
  function LoopOrGiveUp(cmd: Payload, attempt: nat, maxRetries: nat): Task
    requires cmd.ReserveInventoryCmd?
  {
    if attempt < maxRetries then ReserveLoop(cmd, attempt) else Pub(Reserved(cmd, false, INSUFFICIENT_STOCK))
  }

  // ---------------------------------------------------------------- one step

  predicate Idle(w: World, wk: WorkerId) { wk !in w.tasks }

  function Assign(w: World, wk: WorkerId, t: Task): World {
    w.(tasks := w.tasks[wk := t])
  }

  function Finish(w: World, wk: WorkerId): World {
    w.(tasks := w.tasks - {wk})
  }

  /** Puts a message with a fresh id on the network. */
  function Send(w: World, body: Payload): World {
    w.(net := w.net + {Message(w.nextId, body)}, nextId := w.nextId + 1)
  }

  function DoCreateOrder(w: World, o: OrderId, p: ProductId, q: int, amount: Amount): World {
    if o in w.db.orders || q < 1 || amount <= 0.0 then w
    else w.(db := w.db.(orders := w.db.orders[o := Order(p, q, amount, Pending)]))
  }

  function DoCreateSku(w: World, p: ProductId, qty: int): World {
    if p in w.inv.rows || qty < 0 then w
    else w.(inv := w.inv.(rows := w.inv.rows[p := Inventory(qty, 0, 0)]), supplied := w.supplied[p := qty])
  }

  /** PUT /inventory/:id overwrites available_qty and leaves the version alone. */
  function DoAdminPut(w: World, p: ProductId, qty: int): World {
    if p !in w.inv.rows || qty < 0 then w
    else
      var r := w.inv.rows[p];
      w.(inv := w.inv.(rows := w.inv.rows[p := r.(available := qty)]),
         supplied := w.supplied[p := (if p in w.supplied then w.supplied[p] else 0) + qty - r.available])
  }

  /** POST /payments creates a PENDING row outside any saga. */
  function DoPostPayment(w: World, o: OrderId, amount: Amount): World {
    if o in w.pay.payments || amount <= 0.0 then w
    else w.(pay := w.pay.(payments := w.pay.payments[o := Payment(amount, PaymentPending, w.nextId)]),
            nextId := w.nextId + 1)
  }

  function DoStartSaga(w: World, wk: WorkerId, o: OrderId): World {
    if !Idle(w, wk) || o !in w.db.orders then w
    else
      match InsertSaga(w.db, w.nextId, o)
      case None => w
      case Some(db') =>
        var ord := w.db.orders[o];
        Assign(w.(db := db', nextId := w.nextId + 1, hist := w.hist[w.nextId := []]),
               wk, Pub(ReserveInventoryCmd(w.nextId, o, ord.productId, ord.quantity)))
  }

  function Advance(w: World, db': OrderDb, s: Uuid, eventId: Uuid): World {
    w.(db := db', hist := w.hist[s := (if s in w.hist then w.hist[s] else []) + [eventId]])
  }

  function Record(w: World, s: Uuid, terminal: Option<SagaStatus>): World {
    if terminal.None? then w
    else w.(terminals := w.terminals + multiset{TerminalRecord(s, terminal.value)})
  }

  function DoHandleEvent(w: World, wk: WorkerId, m: Message, recorded: bool): World {
    if !Idle(w, wk) || m !in w.net then w
    else
      match React(w.db, m)
      case Ignored => w
      case Moved(db', command, terminal) =>
        var s := m.body.sagaId;
        var w1 := Record(Advance(w, db', s, m.id), s, if recorded then terminal else None);
        if command.Some? then Assign(w1, wk, Pub(command.value)) else w1
  }

  function DoPublish(w: World, wk: WorkerId): World {
    if wk in w.tasks && w.tasks[wk].Pub? then Send(Finish(w, wk), w.tasks[wk].body) else w
  }

  function DoBeginReserve(w: World, wk: WorkerId, m: Message): World {
    if !Idle(w, wk) || m !in w.net || !m.body.ReserveInventoryCmd? then w
    else if HasLog(w.inv.logs, m.body.orderId, Reserve) then Assign(w, wk, Pub(Reserved(m.body, true, "")))
    else Assign(w, wk, LoopOrGiveUp(m.body, 0, w.maxRetries))
  }

  function DoReadStock(w: World, wk: WorkerId): World {
    if wk in w.tasks && w.tasks[wk].ReserveLoop? && w.tasks[wk].cmd.ReserveInventoryCmd? then
      var t := w.tasks[wk];
      if t.cmd.productId !in w.inv.rows then Finish(w, wk)
      else
        var r := w.inv.rows[t.cmd.productId];
        if r.available < t.cmd.quantity then Assign(w, wk, Pub(Reserved(t.cmd, false, INSUFFICIENT_STOCK)))
        else Assign(w, wk, ReserveCas(t.cmd, t.attempt, r.version))
    else w
  }

  function DoCasReserve(w: World, wk: WorkerId): World {
    if wk in w.tasks && w.tasks[wk].ReserveCas? && w.tasks[wk].cmd.ReserveInventoryCmd? then
      var t := w.tasks[wk];
      match ReserveTx(w.inv, t.cmd.productId, t.cmd.orderId, t.version, t.cmd.quantity)
      case NoRow => Assign(w, wk, LoopOrGiveUp(t.cmd, t.attempt + 1, w.maxRetries))
      case DuplicateLog => Finish(w, wk)
      case Applied(inv') => Assign(w.(inv := inv'), wk, Pub(Reserved(t.cmd, true, "")))
    else w
  }

  function DoBeginRelease(w: World, wk: WorkerId, m: Message): World {
    if !Idle(w, wk) || m !in w.net || !m.body.ReleaseInventoryCmd? then w
    else if HasLog(w.inv.logs, m.body.orderId, Release) then Assign(w, wk, Pub(Released(m.body, true, "")))
    else Assign(w, wk, ReleaseTxn(m.body))
  }

  /** Any error of the release transaction, the duplicate log included, is reported as a failed release. */
  function DoCommitRelease(w: World, wk: WorkerId, fault: bool, errorText: string): World {
    if wk in w.tasks && w.tasks[wk].ReleaseTxn? && w.tasks[wk].cmd.ReleaseInventoryCmd? then
      var cmd := w.tasks[wk].cmd;
      if fault then Assign(w, wk, Pub(Released(cmd, false, errorText)))
      else
        match ReleaseTx(w.inv, cmd.productId, cmd.orderId, cmd.quantity)
        case NoRow => Assign(w, wk, Pub(Released(cmd, false, NotFound(cmd.productId))))
        case DuplicateLog => Assign(w, wk, Pub(Released(cmd, false, errorText)))
        case Applied(inv') => Assign(w.(inv := inv'), wk, Pub(Released(cmd, true, "")))
    else w
  }

  function DoBeginPayment(w: World, wk: WorkerId, m: Message): World {
    if !Idle(w, wk) || m !in w.net || !m.body.ProcessPaymentCmd? || m.id in w.pay.processed then w
    else Assign(w, wk, PayLookup(m.body, m.id))
  }

  function DoLookupPayment(w: World, wk: WorkerId): World {
    if wk in w.tasks && w.tasks[wk].PayLookup? then
      var t := w.tasks[wk];
      if t.cmd.orderId in w.pay.payments
      then Assign(w, wk, Pub(PaymentReply(t.cmd, w.pay.payments[t.cmd.orderId])))
      else Assign(w, wk, PayInsert(t.cmd, t.messageId))
    else w
  }

  function DoInsertPayment(w: World, wk: WorkerId, declined: bool): World {
    if wk in w.tasks && w.tasks[wk].PayInsert? && w.tasks[wk].cmd.ProcessPaymentCmd? then
      var t := w.tasks[wk];
      var row := Payment(t.cmd.amount, if declined then PaymentFailed else PaymentSuccess, w.nextId);
      match InsertPaymentTx(w.pay, t.cmd.orderId, row, t.messageId)
      case None => Finish(w, wk)
      case Some(pay') => Assign(w.(pay := pay', nextId := w.nextId + 1), wk, Pub(PaymentReply(t.cmd, row)))
    else w
  }

  function DoListSagas(w: World, wk: WorkerId, status: SagaStatus, listing: seq<Uuid>): World {
    if !Idle(w, wk) || (status != InProgress && status != Compensating) || !IsListing(w.db, status, listing) then w
    else Assign(w, wk, Recover(Snapshots(w.db, listing)))
  }

  /** Re-sends the command of the first listed row, or skips that row, and goes on with the rest. */
  function DoResendNext(w: World, wk: WorkerId, delivered: bool): World {
    if wk in w.tasks && w.tasks[wk].Recover? then
      var todo := w.tasks[wk].todo;
      if todo == [] then Finish(w, wk)
      else
        var w1 := Assign(w, wk, Recover(todo[1..]));
        var c := RecoveryCommand(w.db, todo[0]);
        if c.None? || !delivered then w1 else Send(w1, c.value)
    else w
  }

  function Next(w: World, a: Action): World {
    match a
    case CreateOrder(o, p, q, amount) => DoCreateOrder(w, o, p, q, amount)
    case CreateSku(p, qty) => DoCreateSku(w, p, qty)
    case AdminPut(p, qty) => DoAdminPut(w, p, qty)
    case PostPayment(o, amount) => DoPostPayment(w, o, amount)
    case StartSaga(wk, o) => DoStartSaga(w, wk, o)
    case HandleEvent(wk, m, recorded) => DoHandleEvent(w, wk, m, recorded)
    case Publish(wk) => DoPublish(w, wk)
    case Crash(wk) => Finish(w, wk)
    case BeginReserve(wk, m) => DoBeginReserve(w, wk, m)
    case ReadStock(wk) => DoReadStock(w, wk)
    case CasReserve(wk) => DoCasReserve(w, wk)
    case BeginRelease(wk, m) => DoBeginRelease(w, wk, m)
    case CommitRelease(wk, fault, text) => DoCommitRelease(w, wk, fault, text)
    case BeginPayment(wk, m) => DoBeginPayment(w, wk, m)
    case LookupPayment(wk) => DoLookupPayment(w, wk)
    case InsertPayment(wk, declined) => DoInsertPayment(w, wk, declined)
    case ListSagas(wk, status, listing) => DoListSagas(w, wk, status, listing)
    case ResendNext(wk, delivered) => DoResendNext(w, wk, delivered)
  }

  /** The world after the actions, in order. */
  function Exec(w: World, actions: seq<Action>): World {
    if actions == [] then w else Next(Exec(w, actions[..|actions| - 1]), actions[|actions| - 1])
  }

  lemma ExecSnoc(w: World, actions: seq<Action>, a: Action)
    ensures Exec(w, actions + [a]) == Next(Exec(w, actions), a)
  {
    assert (actions + [a])[..|actions|] == actions;
  }

  lemma ExecOne(w: World, a: Action)
    ensures Exec(w, [a]) == Next(w, a)
  {
    ExecSnoc(w, [], a);
    assert [] + [a] == [a];
  }

  lemma {:induction false} ExecConcat(w: World, before: seq<Action>, after: seq<Action>)
    ensures Exec(w, before + after) == Exec(Exec(w, before), after)
    decreases |after|
  {
    if after == [] {
      assert before + after == before;
    } else {
      var rest := after[..|after| - 1];
      assert before + after == (before + rest) + [after[|after| - 1]];
      ExecSnoc(w, before + rest, after[|after| - 1]);
      ExecConcat(w, before, rest);
    }
  }

  lemma ExecStep(w: World, actions: seq<Action>, i: nat)
    requires i < |actions|
    ensures Exec(w, actions[..i + 1]) == Next(Exec(w, actions[..i]), actions[i])
  {
    assert actions[..i + 1][..i] == actions[..i];
  }
}
