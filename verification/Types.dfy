/** The values that the three services exchange and store.  Field for field these follow the
    Go structs; columns that no handler reads (user id, timestamps, the unused retry counter of a
    saga) are absent. */
module SagaTypes {
  datatype Option<+T> = None | Some(value: T)

  type OrderId = nat
  type ProductId = nat
  type Uuid = nat      // saga, message and transaction ids; NewUUID is assumed never to repeat
  type WorkerId = nat  // one goroutine that handles one delivery, request or recovery tick
  type Amount = real

  datatype OrderStatus = Pending | InventoryReserved | Confirmed | OrderFailed | OrderCompensated

  datatype Order = Order(productId: ProductId, quantity: int, totalAmount: Amount, status: OrderStatus)

  datatype SagaStep = ReservingInventory | ProcessingPayment | ReleasingInventory | Done

  datatype SagaStatus = InProgress | Completed | SagaFailed | Compensating | SagaCompensated

  datatype SagaState = SagaState(
    orderId: OrderId,
    step: SagaStep,
    status: SagaStatus,
    lastEventId: Option<Uuid>,
    lastError: string)

  datatype Inventory = Inventory(available: int, reserved: int, version: int)

  datatype LogAction = Reserve | Release

  datatype InventoryLog = InventoryLog(productId: ProductId, orderId: OrderId, action: LogAction, quantity: int)

  datatype PaymentStatus = PaymentPending | PaymentSuccess | PaymentFailed

  datatype Payment = Payment(amount: Amount, status: PaymentStatus, transactionId: Uuid)

  /** Message bodies: the three commands and the three events. */
  datatype Payload =
    | ReserveInventoryCmd(sagaId: Uuid, orderId: OrderId, productId: ProductId, quantity: int)
    | ProcessPaymentCmd(sagaId: Uuid, orderId: OrderId, amount: Amount)
    | ReleaseInventoryCmd(sagaId: Uuid, orderId: OrderId, productId: ProductId, quantity: int)
    | InventoryReservedEvent(sagaId: Uuid, orderId: OrderId, productId: ProductId, quantity: int,
                             success: bool, reason: string)
    | PaymentProcessedEvent(sagaId: Uuid, orderId: OrderId, transactionId: Uuid, success: bool, reason: string)
    | InventoryReleasedEvent(sagaId: Uuid, orderId: OrderId, productId: ProductId, quantity: int,
                             success: bool, reason: string)
  {
    predicate IsEvent() {
      InventoryReservedEvent? || PaymentProcessedEvent? || InventoryReleasedEvent?
    }
  }

  datatype Message = Message(id: Uuid, body: Payload)

  const INSUFFICIENT_STOCK := "INSUFFICIENT_STOCK"
  const SIMULATED_FAILURE := "SIMULATED_FAILURE"
  const COMPENSATION_FAILED := "compensation failed: "
  const MAX_ERROR_LENGTH := 500

  /** The last_error column holds at most 500 bytes. */
  function Truncate(s: string): (r: string) {
    if |s| <= MAX_ERROR_LENGTH then s else s[..MAX_ERROR_LENGTH]
  }
}
