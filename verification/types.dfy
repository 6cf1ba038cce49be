/** The vocabulary shared by every module: enumerations, rows, broker messages and results. */
module Types {

  /** Identifiers are modelled by their textual form. */
  type Uuid = string

  datatype Option<+T> = None | Some(value: T)

  datatype Side = Buy | Sell
  datatype OrderType = Market | Limit
  datatype TimeInForce = Day | Gtc | Ioc

  datatype Status =
    | New
    | Validated
    | Routed
    | PartiallyFilled
    | Filled
    | Rejected
    | CancelPending
    | Cancelled

  datatype BrokerEventKind = FullFill | PartialFill | Reject | Cancel

  datatype AuditKind =
    | OrderCreated
    | OrderValidated
    | ValidationFailed
    | OrderRouted
    | PartialFillReceived
    | FullFillReceived
    | CancelRequested
    | OrderCancelled
    | OrderRejected
    | BrokerEventIgnored

  datatype Failure =
    | OrderNotFound
    | AccountNotFound
    | DuplicateOrder
    | DuplicateAccount
    | InvalidCancellation
    | InvalidFill
    | InvalidStateTransition
    | ConstraintViolation
    | BrokerUnavailable

  /** A row of the accounts table. */
  datatype Account = Account(userId: string, cash: real, reserved: real, version: nat) {
    function Available(): real { cash - reserved }
  }

  /** A row of the orders table; the primary key is the key of the table. */
  datatype Order = Order(
    accountId: Uuid,
    clientOrderId: string,
    idempotencyKey: string,
    symbol: string,
    side: Side,
    orderType: OrderType,
    timeInForce: TimeInForce,
    quantity: real,
    price: real,
    expiresAt: Option<int>,
    filled: real,
    cancelled: real,
    remaining: real,
    average: Option<real>,
    status: Status,
    rejection: Option<string>)
  {
    function Key(): PositionKey { PositionKey(accountId, symbol) }
  }

  datatype PositionKey = PositionKey(accountId: Uuid, symbol: string)

  /** A row of the positions table, keyed by account and symbol. */
  datatype Position = Position(net: real, average: real, realized: real, unrealized: real, mark: Option<real>)

  /** An immutable row of the fills table. */
  datatype Fill = Fill(orderId: Uuid, eventId: Uuid, executionId: string, quantity: real, price: real)

  /** A row of the processed broker events table, keyed by the broker's event id. */
  datatype Processed = Processed(orderId: Uuid, kind: BrokerEventKind, applied: bool)

  /** A row of the append-only order audit log. */
  datatype AuditEvent = AuditEvent(orderId: Uuid, kind: AuditKind, before: Option<Status>, after: Status)

  datatype Quote = Quote(price: real, observedAt: int)

  /** What a client sends to open an order. */
  datatype Payload = Payload(
    clientOrderId: string,
    idempotencyKey: string,
    accountId: Uuid,
    symbol: string,
    side: Side,
    orderType: OrderType,
    timeInForce: TimeInForce,
    quantity: real,
    price: real)

  /** A callback from the broker. */
  datatype BrokerEvent = BrokerEvent(
    eventId: Uuid,
    kind: BrokerEventKind,
    orderId: Uuid,
    quantity: real,
    price: Option<real>,
    executionId: Option<string>,
    reason: Option<string>)

  datatype BrokerOrder = BrokerOrder(
    orderId: Uuid,
    symbol: string,
    side: Side,
    timeInForce: TimeInForce,
    quantity: real,
    remaining: real,
    price: real)

  /** A call made to the broker after a transaction commits. */
  datatype Outbound = Submit(order: BrokerOrder) | CancelAtBroker(orderId: Uuid, reason: string)

  datatype Answer = OrderIs(orderId: Uuid) | Applied(applied: bool) | Done

  datatype Outcome = Ok(answer: Answer) | Fail(failure: Failure)
}
