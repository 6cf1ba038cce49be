/** The tables as mutable state: rows that services update in place, and the session that commits them. */
module Database {
  import opened Types
  import opened Numeric
  import opened Tables
  import opened Transactions

  class AccountRow {
    const id: Uuid
    const userId: string
    var cash: real
    var reserved: real
    var version: nat

    constructor (id: Uuid, a: Account)
      ensures this.id == id && Value() == a
    {
      this.id := id;
      userId, cash, reserved, version := a.userId, a.cash, a.reserved, a.version;
    }

    function Value(): Account
      reads this
    {
      Account(userId, cash, reserved, version)
    }
  }

  /** An order: its terms never change, its progress does. */
  class OrderRow {
    const id: Uuid
    const terms: Order
    var filled: real
    var cancelled: real
    var remaining: real
    var average: Option<real>
    var status: Status
    var rejection: Option<string>

    constructor (id: Uuid, o: Order)
      ensures this.id == id && terms == o && Value() == o
    {
      this.id, terms := id, o;
      filled, cancelled, remaining, average := o.filled, o.cancelled, o.remaining, o.average;
      status, rejection := o.status, o.rejection;
    }

    function Value(): Order
      reads this
    {
      terms.(filled := filled, cancelled := cancelled, remaining := remaining, average := average,
             status := status, rejection := rejection)
    }
  }

  class PositionRow {
    const key: PositionKey
    var net: real
    var average: real
    var realized: real
    var unrealized: real
    var mark: Option<real>

    constructor (key: PositionKey, p: Position)
      ensures this.key == key && Value() == p
    {
      this.key := key;
      net, average, realized, unrealized, mark := p.net, p.average, p.realized, p.unrealized, p.mark;
    }

    function Value(): Position
      reads this
    {
      Position(net, average, realized, unrealized, mark)
    }
  }

  class PriceRow {
    const symbol: string
    var price: real
    var observedAt: int

    constructor (symbol: string, q: Quote)
      ensures this.symbol == symbol && Value() == q
    {
      this.symbol, price, observedAt := symbol, q.price, q.observedAt;
    }

    function Value(): Quote
      reads this
    {
      Quote(price, observedAt)
    }
  }

  /** The committed tables. */
  class Database {
    const storage: Storage
    var accounts: map<Uuid, Account>
    var orders: map<Uuid, Order>
    var positions: map<PositionKey, Position>
    var quotes: map<string, Quote>
    var processed: map<Uuid, Processed>
    var fills: seq<Fill>
    var audit: seq<AuditEvent>

    constructor (storage: Storage)
      ensures Valid() && this.storage == storage && Tables([]) == EMPTY
    {
      this.storage := storage;
      accounts, orders, positions, quotes, processed, fills, audit := map[], map[], map[], map[], map[], [], [];
    }

    /** The tables as a value, next to the calls made to the broker so far. */
    function Tables(calls: seq<Outbound>): Db
      reads this
    {
      Db(accounts, orders, positions, quotes, processed, fills, audit, calls)
    }

    /** What the schema guarantees of the tables the services read: unique keys, and order rows that pass their checks. */
    ghost predicate Valid()
      reads this
    {
      OrdersOk(storage, orders)
    }

    /** Write a change to the tables, rounding every column as it is stored. */
    method Write(c: Change, ghost calls: seq<Outbound>)
      requires Valid() && OrderChecks(StoreOrder(storage, c.order)) && c.outbox == []
      requires if c.orderId in orders then Same(orders[c.orderId], c.order) else KeysAreNew(orders, c.order)
      modifies this
      ensures Valid()
      ensures Tables(calls) == Commit(storage, old(Tables(calls)), c)
    {
      hide StoreOrder;
      hide StoreAccount;
      hide StorePosition;
      hide StoreFill;
      StoreIsOk(storage, orders, c.orderId, c.order);
      hide OrdersOk;
      CommittedTables(storage, Tables(calls), c);
      hide Commit;
      accounts := if c.account.None? then accounts else accounts[c.order.accountId := StoreAccount(storage, c.account.value)];
      orders := orders[c.orderId := StoreOrder(storage, c.order)];
      positions := if c.position.None? then positions else positions[c.order.Key() := StorePosition(storage, c.position.value)];
      processed := if c.processed.None? then processed else processed[c.processed.value.0 := c.processed.value.1];
      fills := if c.fill.None? then fills else fills + [StoreFill(storage, c.fill.value)];
      audit := audit + c.audit;
    }
  }

  /** A row as it is found in the orders table. */
  predicate RowOk(m: Storage, o: Order) { OrderChecks(o) && StoreOrder(m, o) == o }

  /**
   * A unit of work. It loads each row at most once, keeps what the services assign to it, and writes
   * everything when it commits. Leaving it without committing rolls back.
   */
  class Session {
    const database: Database
    var order: OrderRow?
    var account: AccountRow?
    var position: PositionRow?
    var fill: Option<Fill>
    var processed: Option<(Uuid, Processed)>
    var events: seq<AuditEvent>

    constructor (database: Database)
      ensures this.database == database && Untouched()
    {
      this.database := database;
      order, account, position := null, null, null;
      fill, processed, events := None, None, [];
    }

    ghost predicate Untouched()
      reads this
    {
      order == null && account == null && position == null && fill.None? && processed.None? && events == []
    }

    /** The account as the session would write it; absent when it was not changed. */
    function AccountWritten(): Option<Account>
      reads this, database, account
    {
      if account == null || (account.id in database.accounts && account.Value() == database.accounts[account.id]) then None
      else Some(account.Value())
    }

    function PositionWritten(): Option<Position>
      reads this, position
    {
      if position == null then None else Some(position.Value())
    }

    /** Everything the session would write if it committed now. */
    function Pending(): Change
      requires order != null
      reads this, database, order, account, position
    {
      Change(order.id, order.Value(), AccountWritten(), PositionWritten(), fill, processed, events, [])
    }

    /** SELECT ... FOR UPDATE on an order. */
    method LockOrder(id: Uuid) returns (row: OrderRow?)
      requires order == null
      modifies this`order
      ensures row == order
      ensures row != null <==> id in database.orders
      ensures row != null ==> fresh(row) && row.id == id && row.Value() == database.orders[id]
    {
      if id in database.orders {
        order := new OrderRow(id, database.orders[id]);
      }
      row := order;
    }

    /** SELECT ... FOR UPDATE on an account; a row the session already holds is returned as it is. */
    method LockAccount(id: Uuid) returns (row: AccountRow?)
      requires account != null ==> account.id == id
      modifies this`account
      ensures row == account
      ensures old(account) != null ==> account == old(account)
      ensures old(account) == null ==> (row != null <==> id in database.accounts)
      ensures old(account) == null && row != null ==> fresh(row) && row.id == id && row.Value() == database.accounts[id]
    {
      if account == null && id in database.accounts {
        account := new AccountRow(id, database.accounts[id]);
      }
      row := account;
    }

    /** SELECT ... FOR UPDATE on a position. */
    method LockPosition(key: PositionKey) returns (row: PositionRow?)
      requires position == null
      modifies this`position
      ensures row == position
      ensures row != null <==> key in database.positions
      ensures row != null ==> fresh(row) && row.key == key && row.Value() == database.positions[key]
    {
      if key in database.positions {
        position := new PositionRow(key, database.positions[key]);
      }
      row := position;
    }

    /** Whether the database accepts the rows as they are now: check constraints and unique fills. */
    predicate Accepted()
      reads this, database, order, account, position
    {
      && (order != null ==> OrderChecks(StoreOrder(database.storage, order.Value())))
      && (AccountWritten().Some? ==> AccountChecks(StoreAccount(database.storage, AccountWritten().value)))
      && (position != null ==> PositionChecks(StorePosition(database.storage, position.Value())))
      && (fill.Some? ==>
            && FillChecks(StoreFill(database.storage, fill.value))
            && FillIsFresh(database.fills, fill.value.eventId, fill.value.executionId))
    }

    /** COMMIT. */
    method Commit(ghost calls: seq<Outbound>)
      requires order != null && database.Valid() && Accepted()
      requires if order.id in database.orders then Same(database.orders[order.id], order.Value())
               else KeysAreNew(database.orders, order.Value())
      modifies database
      ensures database.Valid()
      ensures database.Tables(calls) == Tables.Commit(database.storage, old(database.Tables(calls)), old(Pending()))
    {
      database.Write(Pending(), calls);
    }

    /** The session is ready to commit exactly what the verdict writes, or nothing can be committed. */
    ghost predicate Concludes(error: Option<Failure>, answer: Answer, v: Verdict)
      reads this, database, order, account, position
    {
      match v
      case Refuse(f) => error == Some(f) || (error.None? && !Accepted() && f == ConstraintViolation)
      case Keep(_) => false
      case Write(c, a) => error.None? && a == answer && order != null && Accepted() && Pending() == c.(outbox := [])
    }

    /** Leave the transaction: roll back after an error or a failed constraint, commit otherwise. */
    method Finish(error: Option<Failure>, answer: Answer, ghost v: Verdict, ghost calls: seq<Outbound>) returns (outcome: Outcome)
      requires order != null && database.Valid() && Concludes(error, answer, v)
      requires v.Write? ==>
        if order.id in database.orders then Same(database.orders[order.id], order.Value())
        else KeysAreNew(database.orders, order.Value())
      modifies database
      ensures database.Valid()
      ensures match v
        case Refuse(f) => outcome == Fail(f) && database.Tables(calls) == old(database.Tables(calls))
        case Keep(_) => false
        case Write(c, a) =>
          outcome == Ok(a) && database.Tables(calls) == Tables.Commit(database.storage, old(database.Tables(calls)), c.(outbox := []))
    {
      if error.Some? {
        return Fail(error.value);
      }
      if !Accepted() {
        return Fail(ConstraintViolation);
      }
      Commit(calls);
      return Ok(answer);
    }
  }

  predicate Same(before: Order, after: Order) {
    && before.accountId == after.accountId
    && before.idempotencyKey == after.idempotencyKey
    && before.clientOrderId == after.clientOrderId
  }

  ghost predicate KeysAreNew(orders: map<Uuid, Order>, o: Order) {
    forall i :: i in orders && orders[i].accountId == o.accountId ==>
      orders[i].idempotencyKey != o.idempotencyKey && orders[i].clientOrderId != o.clientOrderId
  }

  ghost predicate OrdersOk(m: Storage, orders: map<Uuid, Order>) {
    && UniqueKeys(orders)
    && forall id :: id in orders ==> RowOk(m, orders[id])
  }

  lemma StoreIsOk(m: Storage, orders: map<Uuid, Order>, id: Uuid, o: Order)
    requires OrdersOk(m, orders) && OrderChecks(StoreOrder(m, o))
    requires if id in orders then Same(orders[id], o) else KeysAreNew(orders, o)
    ensures OrdersOk(m, orders[id := StoreOrder(m, o)])
  {
    StoredTwice(m, o);
    StoringKeepsKeys(m, o);
    hide StoreOrder;
    hide OrderChecks;
  }

  /** The tables a change without calls leaves, one by one. */
  lemma CommittedTables(m: Storage, db: Db, c: Change)
    requires c.outbox == []
    ensures var s := Commit(m, db, c);
      && s.accounts == (if c.account.None? then db.accounts else db.accounts[c.order.accountId := StoreAccount(m, c.account.value)])
      && s.orders == db.orders[c.orderId := StoreOrder(m, c.order)]
      && s.positions == (if c.position.None? then db.positions
                         else db.positions[c.order.Key() := StorePosition(m, c.position.value)])
      && s.quotes == db.quotes
      && s.processed == (if c.processed.None? then db.processed
                         else db.processed[c.processed.value.0 := c.processed.value.1])
      && s.fills == (if c.fill.None? then db.fills else db.fills + [StoreFill(m, c.fill.value)])
      && s.audit == db.audit + c.audit && s.outbox == db.outbox
  {
    hide Stored;
    assert db.outbox + c.outbox == db.outbox;
  }

  lemma StoringKeepsKeys(m: Storage, o: Order)
    ensures var s := StoreOrder(m, o);
      s.accountId == o.accountId && s.idempotencyKey == o.idempotencyKey && s.clientOrderId == o.clientOrderId && s.symbol == o.symbol
  {
  }

  /** A value that has been stored is stored again unchanged. */
  lemma StoredTwice(m: Storage, o: Order)
    ensures StoreOrder(m, StoreOrder(m, o)) == StoreOrder(m, o)
  {
    StoredIsClean(m, o.quantity);
    StoredIsClean(m, o.price);
    StoredIsClean(m, o.filled);
    StoredIsClean(m, o.cancelled);
    StoredIsClean(m, o.remaining);
    if o.average.Some? {
      StoredIsClean(m, o.average.value);
    }
    hide Stored;
  }

  /** A commit writes the same rows whatever calls follow it. */
  lemma CallsFollowRows(m: Storage, db: Db, c: Change)
    ensures Tables.Commit(m, db, c) == Tables.Commit(m, db, c.(outbox := [])).(outbox := db.outbox + c.outbox)
  {
    hide StoreOrder;
    hide StoreAccount;
    hide StorePosition;
    hide StoreFill;
  }

  lemma OrderIsOk(database: Database, id: Uuid)
    requires database.Valid() && id in database.orders
    ensures RowOk(database.storage, database.orders[id])
  {
  }
}
