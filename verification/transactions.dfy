/**
 * The service transactions. Each is judged on the rows it read: it refuses (and rolls back),
 * answers without writing, or writes one Change. A run is a sequence of transactions.
 */
module Transactions {
  import opened Types
  import opened Numeric
  import opened Tables
  import opened OrderRules
  import PositionRules

  datatype Command =
    | Open(accountId: Uuid, userId: string, cash: real)
    | Place(payload: Payload, orderId: Uuid, expiry: int)
    | RoutingFailed(orderId: Uuid, reason: string)
    | RequestCancel(orderId: Uuid, reason: string)
    | Handle(event: BrokerEvent)
    | Tick(symbol: string, price: real, at: int)

  datatype Existing = Existing(orderId: Uuid, order: Order)

  /** The rows a transaction on one order reads. */
  datatype View = View(
    order: Option<Order>,
    account: Option<Account>,
    position: Option<Position>,
    mark: Option<real>,
    duplicate: bool,
    fillFresh: bool,
    sameKey: Option<Existing>,
    clientIdTaken: bool,
    orderIdTaken: bool)

  datatype Verdict = Refuse(failure: Failure) | Keep(answer: Answer) | Write(change: Change, answer: Answer)

  function Link(id: Uuid, kind: AuditKind, before: Status, after: Status): AuditEvent {
    AuditEvent(id, kind, Some(before), after)
  }

  // ---------- creating an order ----------

  function NewOrder(p: Payload, expiry: int): Order {
    Order(p.accountId, p.clientOrderId, p.idempotencyKey, p.symbol, p.side, p.orderType, p.timeInForce,
          p.quantity, p.price, if p.timeInForce.Day? then Some(expiry) else None,
          0.0, 0.0, p.quantity, None, New, None)
  }

  function ToBroker(id: Uuid, o: Order): BrokerOrder {
    BrokerOrder(id, o.symbol, o.side, o.timeInForce, o.quantity, o.remaining, o.price)
  }

  /** The account after the order's buying power is set aside. */
  function Reserve(a: Account, o: Order): Account {
    a.(reserved := a.reserved + RequiredBuyingPower(o.side, o.quantity, o.price), version := a.version + 1)
  }

  function PlaceVerdict(m: Storage, p: Payload, id: Uuid, expiry: int, v: View): Verdict {
    var o := NewOrder(p, expiry);
    var created := AuditEvent(id, OrderCreated, None, New);
    if v.account.None? then Refuse(AccountNotFound)
    else if v.sameKey.Some? then
      (if MatchesRequest(v.sameKey.value.order, p) then Keep(OrderIs(v.sameKey.value.orderId)) else Refuse(DuplicateOrder))
    else if v.clientIdTaken then Refuse(DuplicateOrder)
    else if v.orderIdTaken || !OrderChecks(StoreOrder(m, o)) then Refuse(ConstraintViolation)
    else if RequiredBuyingPower(p.side, p.quantity, p.price) > v.account.value.Available() then
      Write(Change(id, o.(status := Rejected, rejection := Some("Insufficient buying power")), None, None, None, None,
                   [created, Link(id, ValidationFailed, New, Rejected)], []),
            OrderIs(id))
    else if p.side.Buy? && !AccountChecks(StoreAccount(m, Reserve(v.account.value, o))) then Refuse(ConstraintViolation)
    else
      Write(Change(id, o.(status := Routed),
                   if p.side.Buy? then Some(Reserve(v.account.value, o)) else None, None, None, None,
                   [created, Link(id, OrderValidated, New, Validated), Link(id, OrderRouted, Validated, Routed)],
                   [Submit(ToBroker(id, o))]),
            OrderIs(id))
  }

  // ---------- leaving the book without a fill ----------

  /** The cash value of what is left to fill. */
  function RemainingNotional(o: Order): real { Notional(o.remaining, o.price) }

  /** Whether the order still holds reserved cash to give back. */
  predicate HoldsCash(o: Order) { o.side.Buy? && o.remaining > 0.0 }

  function Unreserve(a: Account, amount: real): Account {
    a.(reserved := a.reserved - amount, version := a.version + 1)
  }

  function Release(a: Account, o: Order): Option<Account> {
    if !HoldsCash(o) then Some(a)
    else if RemainingNotional(o) > a.reserved then None
    else Some(Unreserve(a, RemainingNotional(o)))
  }

  function RejectedOrder(o: Order, reason: string): Order { o.(status := Rejected, rejection := Some(reason)) }

  function CancelledOrder(o: Order): Order {
    o.(cancelled := o.cancelled + o.remaining, remaining := 0.0, status := Cancelled)
  }

  function RoutingFailedVerdict(m: Storage, id: Uuid, reason: string, v: View): Verdict {
    if v.order.None? || !v.order.value.status.Routed? then Keep(Done)
    else if v.account.None? then Refuse(AccountNotFound)
    else
      var o := v.order.value;
      var a := Unreserve(v.account.value, RemainingNotional(o));
      if o.side.Buy? && !AccountChecks(StoreAccount(m, a)) then Refuse(ConstraintViolation)
      else
        Write(Change(id, RejectedOrder(o, "Broker routing failed: " + reason), if o.side.Buy? then Some(a) else None,
                     None, None, None, [Link(id, OrderRejected, Routed, Rejected)], []),
              Done)
  }

  function RequestCancelVerdict(id: Uuid, reason: string, v: View): Verdict {
    if v.order.None? then Refuse(OrderNotFound)
    else
      var o := v.order.value;
      if o.status.CancelPending? then Keep(OrderIs(id))
      else if !Cancellable(o.status) then Refuse(InvalidCancellation)
      else
        Write(Change(id, o.(status := CancelPending), None, None, None, None,
                     [Link(id, CancelRequested, o.status, CancelPending)], [CancelAtBroker(id, reason)]),
              OrderIs(id))
  }

  // ---------- broker events ----------

  function ExecutionKey(e: BrokerEvent): string {
    if e.executionId.Some? && e.executionId.value != "" then e.executionId.value else e.eventId
  }

  function ReasonOr(e: BrokerEvent, default: string): string {
    if e.reason.Some? && e.reason.value != "" then e.reason.value else default
  }

  /** The bookkeeping of an event that changes nothing else. */
  function IgnoreVerdict(e: BrokerEvent, o: Order): Verdict {
    Write(Change(e.orderId, o, None, None, None, Some((e.eventId, Processed(e.orderId, e.kind, false))),
                 [Link(e.orderId, BrokerEventIgnored, o.status, o.status)], []),
          Applied(false))
  }

  function AppliedRow(e: BrokerEvent): Option<(Uuid, Processed)> {
    Some((e.eventId, Processed(e.orderId, e.kind, true)))
  }

  predicate IsFill(e: BrokerEvent) { e.kind.FullFill? || e.kind.PartialFill? }

  datatype FillGuard = Stale | Malformed | Excess | Incomplete | Take

  function GuardFill(o: Order, e: BrokerEvent): FillGuard {
    if !Working(o.status) then Stale
    else if e.price.None? || e.quantity <= 0.0 then Malformed
    else if e.quantity > o.remaining then Excess
    else if e.kind.FullFill? && e.quantity != o.remaining then Incomplete
    else Take
  }

  function ValueFilled(o: Order): real { o.filled * (if o.average.Some? then o.average.value else 0.0) }

  /** The order row after q units fill at p, before its status is settled. */
  function WithFill(o: Order, q: real, p: real): Order
    requires o.filled + q != 0.0
  {
    o.(average := Some((ValueFilled(o) + Notional(q, p)) / (o.filled + q)), filled := o.filled + q, remaining := o.remaining - q)
  }

  /** The account after the fill; None when the reservation or the cash does not cover it. */
  function Settle(a: Account, o: Order, q: real, p: real): Option<Account> {
    if o.side.Sell? then Some(a.(cash := a.cash + Notional(q, p), version := a.version + 1))
    else if Notional(q, o.price) > a.reserved || Notional(q, p) > a.cash then None
    else Some(a.(reserved := a.reserved - Notional(q, o.price), cash := a.cash - Notional(q, p), version := a.version + 1))
  }

  function BookOf(p: Option<Position>): PositionRules.Book {
    if p.None? then PositionRules.FLAT else PositionRules.Book(p.value.net, p.value.average, p.value.realized)
  }

  function Execute(pos: Option<Position>, mark: Option<real>, t: PositionRules.Trade): Position
    requires t.quantity > 0.0
  {
    var b := PositionRules.AfterFill(BookOf(pos), t);
    var shown := if mark.Some? then mark.value else t.price;
    Position(b.net, b.average, b.realized, PositionRules.Unrealized(b.net, b.average, Some(shown)), Some(shown))
  }

  function StatusAfterFill(o: Order): Status {
    if o.remaining == 0.0 then Filled
    else if o.status.Routed? then PartiallyFilled
    else o.status
  }

  function FillVerdict(m: Storage, e: BrokerEvent, v: View): Verdict
    requires v.order.Some? && e.price.Some? && e.quantity > 0.0
  {
    var o, q, p, id := v.order.value, e.quantity, e.price.value, e.orderId;
    if o.filled + q == 0.0 then Refuse(ConstraintViolation)
    else
      var o1 := WithFill(o, q, p);
      var fill := Fill(id, e.eventId, ExecutionKey(e), q, p);
      if !v.fillFresh || !FillChecks(StoreFill(m, fill)) || !OrderChecks(StoreOrder(m, o1)) then Refuse(ConstraintViolation)
      else if v.account.None? then Refuse(AccountNotFound)
      else
        var paid := Settle(v.account.value, o, q, p);
        if paid.None? then Refuse(InvalidFill)
        else
          var pos := Execute(v.position, v.mark, PositionRules.Trade(o.side, q, p));
          if !AccountChecks(StoreAccount(m, paid.value)) || !PositionChecks(StorePosition(m, pos)) then
            Refuse(ConstraintViolation)
          else if o1.remaining != 0.0 && o.timeInForce.Ioc? then
            CancelRest(m, e, o1, paid.value, pos, fill)
          else
            var kind := if o1.remaining == 0.0 then FullFillReceived else PartialFillReceived;
            Write(Change(id, o1.(status := StatusAfterFill(o1)), paid, Some(pos), Some(fill), AppliedRow(e),
                         [Link(id, kind, o.status, StatusAfterFill(o1))], []),
                  Applied(true))
  }

  /** An immediate-or-cancel order never rests: the remainder is cancelled in the same transaction. */
  function CancelRest(m: Storage, e: BrokerEvent, o: Order, a: Account, pos: Position, fill: Fill): Verdict {
    var released := Release(a, o);
    if released.None? then Refuse(InvalidFill)
    else if !AccountChecks(StoreAccount(m, released.value)) || !OrderChecks(StoreOrder(m, CancelledOrder(o))) then
      Refuse(ConstraintViolation)
    else
      Write(Change(e.orderId, CancelledOrder(o), released, Some(pos), Some(fill), AppliedRow(e),
                   [Link(e.orderId, PartialFillReceived, o.status, o.status), Link(e.orderId, OrderCancelled, o.status, Cancelled)], []),
            Applied(true))
  }

  /** A rejection or a cancellation: give back what the order still holds and close it. */
  function CloseVerdict(m: Storage, e: BrokerEvent, v: View, closed: Order, kind: AuditKind): Verdict
    requires v.order.Some?
  {
    var o := v.order.value;
    if v.account.None? then Refuse(AccountNotFound)
    else
      var released := Release(v.account.value, o);
      if released.None? then Refuse(InvalidFill)
      else if (HoldsCash(o) && !AccountChecks(StoreAccount(m, released.value))) || !OrderChecks(StoreOrder(m, closed)) then
        Refuse(ConstraintViolation)
      else
        Write(Change(e.orderId, closed, if HoldsCash(o) then released else None, None, None, AppliedRow(e),
                     [Link(e.orderId, kind, o.status, closed.status)], []),
              Applied(true))
  }

  /** Whether an event does more to the order than leave a note; only then is the account locked. */
  predicate TakesEffect(o: Order, e: BrokerEvent) {
    match e.kind
    case Reject => o.status.Routed?
    case Cancel => Working(o.status)
    case _ => GuardFill(o, e).Take?
  }

  function HandleVerdict(m: Storage, e: BrokerEvent, v: View): Verdict {
    if v.order.None? then Refuse(OrderNotFound)
    else if v.duplicate then Keep(Applied(false))
    else
      var o := v.order.value;
      match e.kind
      case Reject =>
        if !o.status.Routed? then IgnoreVerdict(e, o)
        else CloseVerdict(m, e, v, RejectedOrder(o, ReasonOr(e, "Rejected by broker")), OrderRejected)
      case Cancel =>
        if !Working(o.status) then IgnoreVerdict(e, o)
        else CloseVerdict(m, e, v, CancelledOrder(o), OrderCancelled)
      case _ =>
        match GuardFill(o, e)
        case Malformed => Refuse(InvalidFill)
        case Take => FillVerdict(m, e, v)
        case _ => IgnoreVerdict(e, o)
  }

  // ---------- atomic transactions ----------

  predicate OnOneOrder(c: Command) { c.Place? || c.RoutingFailed? || c.RequestCancel? || c.Handle? }

  ghost function FindByKey(orders: map<Uuid, Order>, accountId: Uuid, key: string): (r: Option<Existing>)
    ensures r.Some? ==>
      var id := r.value.orderId;
      id in orders && r.value.order == orders[id] && orders[id].accountId == accountId && orders[id].idempotencyKey == key
    ensures r.None? ==> forall id :: id in orders && orders[id].accountId == accountId ==> orders[id].idempotencyKey != key
  {
    if exists id :: id in orders && orders[id].accountId == accountId && orders[id].idempotencyKey == key then
      var id :| id in orders && orders[id].accountId == accountId && orders[id].idempotencyKey == key;
      Some(Existing(id, orders[id]))
    else None
  }

  predicate ClientIdTaken(orders: map<Uuid, Order>, accountId: Uuid, clientOrderId: string) {
    exists id :: id in orders && orders[id].accountId == accountId && orders[id].clientOrderId == clientOrderId
  }

  function MarkOf(quotes: map<string, Quote>, symbol: string): Option<real> {
    if symbol in quotes then Some(quotes[symbol].price) else None
  }

  /** The order a command is about. */
  function Subject(c: Command): Uuid
    requires OnOneOrder(c)
  {
    match c
    case Place(_, id, _) => id
    case RoutingFailed(id, _) => id
    case RequestCancel(id, _) => id
    case Handle(e) => e.orderId
  }

  /** What an atomic transaction reads. */
  ghost function ViewOf(db: Db, c: Command): View
    requires OnOneOrder(c)
  {
    if c.Place? then
      var p := c.payload;
      View(None, Lookup(db.accounts, p.accountId), None, None, false, false,
           FindByKey(db.orders, p.accountId, p.idempotencyKey),
           ClientIdTaken(db.orders, p.accountId, p.clientOrderId),
           c.orderId in db.orders)
    else
      var order := Lookup(db.orders, Subject(c));
      View(order,
           if order.None? then None else Lookup(db.accounts, order.value.accountId),
           if order.None? then None else Lookup(db.positions, order.value.Key()),
           if order.None? then None else MarkOf(db.quotes, order.value.symbol),
           c.Handle? && c.event.eventId in db.processed,
           c.Handle? && FillIsFresh(db.fills, c.event.eventId, ExecutionKey(c.event)),
           None, false, false)
  }

  function Judge(m: Storage, c: Command, v: View): Verdict
    requires OnOneOrder(c)
  {
    match c
    case Place(p, id, expiry) => PlaceVerdict(m, p, id, expiry, v)
    case RoutingFailed(id, reason) => RoutingFailedVerdict(m, id, reason, v)
    case RequestCancel(id, reason) => RequestCancelVerdict(id, reason, v)
    case Handle(e) => HandleVerdict(m, e, v)
  }

  datatype Result = Result(db: Db, outcome: Outcome)

  function Conclude(m: Storage, db: Db, v: Verdict): Result {
    match v
    case Refuse(f) => Result(db, Fail(f))
    case Keep(a) => Result(db, Ok(a))
    case Write(c, a) => Result(Commit(m, db, c), Ok(a))
  }

  function OpenAccount(m: Storage, db: Db, id: Uuid, userId: string, cash: real): Result {
    var a := Account(userId, cash, 0.0, 1);
    if id in db.accounts || (exists x :: x in db.accounts && db.accounts[x].userId == userId) || !AccountChecks(StoreAccount(m, a)) then
      Result(db, Fail(DuplicateAccount))
    else
      Result(db.(accounts := db.accounts[id := StoreAccount(m, a)]), Ok(Done))
  }

  function Remark(m: Storage, p: Position, price: real): Position {
    p.(mark := Some(Stored(m, price)), unrealized := Stored(m, PositionRules.Unrealized(p.net, p.average, Some(price))))
  }

  function ApplyTick(m: Storage, db: Db, symbol: string, price: real, at: int): Result {
    if symbol in db.quotes && at < db.quotes[symbol].observedAt then Result(db, Ok(Done))
    else if Stored(m, price) <= 0.0 then Result(db, Fail(ConstraintViolation))
    else
      Result(db.(quotes := db.quotes[symbol := Quote(Stored(m, price), at)],
                 positions := map k | k in db.positions ::
                   if k.symbol == symbol then Remark(m, db.positions[k], price) else db.positions[k]),
             Ok(Done))
  }

  ghost function Step(m: Storage, db: Db, c: Command): Result {
    match c
    case Open(id, userId, cash) => OpenAccount(m, db, id, userId, cash)
    case Tick(symbol, price, at) => ApplyTick(m, db, symbol, price, at)
    case _ => Conclude(m, db, Judge(m, c, ViewOf(db, c)))
  }

  /** The database after a list of transactions, each run to completion. */
  ghost function Run(m: Storage, db: Db, cs: seq<Command>): Db {
    if cs == [] then db else Step(m, Run(m, db, cs[..|cs| - 1]), cs[|cs| - 1]).db
  }
}
