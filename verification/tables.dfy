/** The database as a value, and the one way a transaction on an order changes it. */
module Tables {
  import opened Types
  import opened Numeric

  datatype Db = Db(
    accounts: map<Uuid, Account>,
    orders: map<Uuid, Order>,
    positions: map<PositionKey, Position>,
    quotes: map<string, Quote>,
    processed: map<Uuid, Processed>,
    fills: seq<Fill>,
    audit: seq<AuditEvent>,
    outbox: seq<Outbound>)

  const EMPTY := Db(map[], map[], map[], map[], map[], [], [], [])

  function Lookup<K, V>(m: map<K, V>, k: K): Option<V> {
    if k in m then Some(m[k]) else None
  }

  // Column storage, one column at a time.

  function StoredOption(m: Storage, x: Option<real>): Option<real> {
    match x
    case None => None
    case Some(v) => Some(Stored(m, v))
  }

  function StoreAccount(m: Storage, a: Account): Account {
    a.(cash := Stored(m, a.cash), reserved := Stored(m, a.reserved))
  }

  function StoreOrder(m: Storage, o: Order): Order {
    o.(quantity := Stored(m, o.quantity),
       price := Stored(m, o.price),
       filled := Stored(m, o.filled),
       cancelled := Stored(m, o.cancelled),
       remaining := Stored(m, o.remaining),
       average := StoredOption(m, o.average))
  }

  function StorePosition(m: Storage, p: Position): Position {
    Position(Stored(m, p.net), Stored(m, p.average), Stored(m, p.realized), Stored(m, p.unrealized), StoredOption(m, p.mark))
  }

  function StoreFill(m: Storage, f: Fill): Fill {
    f.(quantity := Stored(m, f.quantity), price := Stored(m, f.price))
  }

  // Check constraints.

  predicate AccountChecks(a: Account) {
    a.cash >= 0.0 && a.reserved >= 0.0 && a.reserved <= a.cash
  }

  predicate OrderChecks(o: Order) {
    && o.quantity > 0.0
    && o.price > 0.0
    && o.filled >= 0.0
    && o.cancelled >= 0.0
    && o.remaining >= 0.0
    && o.filled + o.cancelled + o.remaining == o.quantity
  }

  predicate PositionChecks(p: Position) {
    p.average >= 0.0 && (p.mark.Some? ==> p.mark.value > 0.0)
  }

  predicate FillChecks(f: Fill) { f.quantity > 0.0 && f.price > 0.0 }

  // Unique constraints on orders.

  ghost predicate UniqueKeys(orders: map<Uuid, Order>) {
    forall i, j :: i in orders && j in orders && i != j && orders[i].accountId == orders[j].accountId ==>
      orders[i].idempotencyKey != orders[j].idempotencyKey && orders[i].clientOrderId != orders[j].clientOrderId
  }

  predicate FillIsFresh(fills: seq<Fill>, eventId: Uuid, executionId: string) {
    forall i :: 0 <= i < |fills| ==> fills[i].eventId != eventId && fills[i].executionId != executionId
  }

  /** Everything one transaction writes about one order. An absent row is not written. */
  datatype Change = Change(
    orderId: Uuid,
    order: Order,
    account: Option<Account>,
    position: Option<Position>,
    fill: Option<Fill>,
    processed: Option<(Uuid, Processed)>,
    audit: seq<AuditEvent>,
    outbox: seq<Outbound>)

  function Commit(m: Storage, db: Db, c: Change): Db {
    Db(if c.account.None? then db.accounts else db.accounts[c.order.accountId := StoreAccount(m, c.account.value)],
       db.orders[c.orderId := StoreOrder(m, c.order)],
       if c.position.None? then db.positions else db.positions[c.order.Key() := StorePosition(m, c.position.value)],
       db.quotes,
       if c.processed.None? then db.processed else db.processed[c.processed.value.0 := c.processed.value.1],
       if c.fill.None? then db.fills else db.fills + [StoreFill(m, c.fill.value)],
       db.audit + c.audit,
       db.outbox + c.outbox)
  }
}
