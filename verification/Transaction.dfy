/** The specification: one order as a single atomic record of its saga phase, its stock and its money.
    Every guard here looks at the whole record, which no service of the implementation can do. */
module OrderTransaction {
  datatype Phase =
    | Unstarted | Reserving | Rejected | Paying | PaidUp | Releasing | Compensated | ReleaseFailed

  datatype Stock = NotHeld | Held | Returned

  datatype Money = NoPayment | Charged | Declined

  datatype Txn = Txn(phase: Phase, stock: Stock, money: Money)

  predicate AtLeastPaying(p: Phase) {
    p.Paying? || p.PaidUp? || AtLeastReleasing(p)
  }

  predicate AtLeastReleasing(p: Phase) {
    p.Releasing? || p.Compensated? || p.ReleaseFailed?
  }

  /** The records that may occur. */
  predicate TxnOk(t: Txn) {
    match t.phase
    case Unstarted => t.stock.NotHeld? && !t.money.Charged?
    case Reserving => !t.stock.Returned? && !t.money.Charged?
    case Rejected => !t.stock.Returned? && !t.money.Charged?
    case Paying => t.stock.Held?
    case PaidUp => t.stock.Held? && t.money.Charged?
    case Releasing => !t.stock.NotHeld? && t.money.Declined?
    case Compensated => t.stock.Returned? && t.money.Declined?
    case ReleaseFailed => !t.stock.NotHeld? && t.money.Declined?
  }

  /** The atomic steps of an order. */
  predicate TxnStep(t: Txn, t': Txn) {
    // a saga starts
    || (t.phase.Unstarted? && t' == t.(phase := Reserving))
    // stock is taken; a stale or duplicate command may do so after the saga was rejected
    || ((t.phase.Reserving? || t.phase.Rejected?) && t.stock.NotHeld? && t' == t.(stock := Held))
    // the saga moves on, or gives up
    || (t.phase.Reserving? && t.stock.Held? && t' == t.(phase := Paying))
    || (t.phase.Reserving? && t' == t.(phase := Rejected))
    // the payment is decided, once
    || (t.phase.Paying? && t.stock.Held? && t.money.NoPayment? && t' == t.(money := Charged))
    || (t.money.NoPayment? && t' == t.(money := Declined))
    // the saga learns of it
    || (t.phase.Paying? && t.money.Charged? && t' == t.(phase := PaidUp))
    || (t.phase.Paying? && t.money.Declined? && t' == t.(phase := Releasing))
    // stock goes back, only after a declined payment
    || ((t.phase.Releasing? || t.phase.ReleaseFailed?) && t.stock.Held? && t.money.Declined?
        && t' == t.(stock := Returned))
    || (t.phase.Releasing? && t.stock.Returned? && t' == t.(phase := Compensated))
    || (t.phase.Releasing? && t' == t.(phase := ReleaseFailed))
  }

  predicate TxnStutterOrStep(t: Txn, t': Txn) {
    t == t' || TxnStep(t, t')
  }

  /** How many steps a saga still has to take; RESERVING 3, PROCESSING 2, RELEASING 1, DONE 0. */
  function PhaseRank(p: Phase): nat
    requires !p.Unstarted?
  {
    match p
    case Reserving => 3
    case Paying => 2
    case Releasing => 1
    case _ => 0
  }

  /** No atomic step, and so no stutter, ever raises the rank of a started order. */
  lemma PhaseRankNeverRises(t: Txn, t': Txn)
    requires TxnStutterOrStep(t, t') && !t.phase.Unstarted?
    ensures !t'.phase.Unstarted? && PhaseRank(t'.phase) <= PhaseRank(t.phase)
  {
  }
}
