/**
 * Simultaneous fill callbacks for one order: every order of arrival ends in the same books, up to the
 * rounding of the stored averages and profits.
 */
module Callbacks {
  import opened Types
  import opened Numeric
  import opened Tables
  import opened OrderRules
  import opened PositionRules
  import opened History
  import opened Transactions
  import opened Invariant
  import opened Steps
  import opened Guards
  import opened InvariantKept

  function TotalQuantity(es: seq<BrokerEvent>): real {
    if es == [] then 0.0 else TotalQuantity(es[..|es| - 1]) + es[|es| - 1].quantity
  }

  function PriceOf(e: BrokerEvent): real { if e.price.Some? then e.price.value else 0.0 }

  function TotalValue(es: seq<BrokerEvent>): real {
    if es == [] then 0.0 else TotalValue(es[..|es| - 1]) + Notional(es[|es| - 1].quantity, PriceOf(es[|es| - 1]))
  }

  /** The callback's value and what it takes from a buy's reservation are stored as they are, as all are in exact storage. */
  predicate WholeCallback(m: Storage, o: Order, e: BrokerEvent) {
    && CleanCommand(m, Handle(e))
    && Clean(m, Notional(e.quantity, PriceOf(e)))
    && (o.side.Buy? ==> Clean(m, Notional(e.quantity, o.price)))
  }

  /** One new partial-fill callback for the order, at or below a buyer's limit. */
  predicate NewPartial(m: Storage, db: Db, id: Uuid, e: BrokerEvent)
    requires id in db.orders
  {
    && e.kind.PartialFill? && e.orderId == id && WellFormed(e)
    && (db.orders[id].side.Buy? ==> PriceOf(e) <= db.orders[id].price)
    && WholeCallback(m, db.orders[id], e)
    && e.eventId !in db.processed
    && FillIsFresh(db.fills, e.eventId, ExecutionKey(e))
  }

  /** Distinct new callbacks that together do not exceed what a resting order has left. */
  predicate Batch(m: Storage, db: Db, id: Uuid, es: seq<BrokerEvent>) {
    && id in db.orders
    && Working(db.orders[id].status) && !db.orders[id].timeInForce.Ioc?
    && (forall i :: 0 <= i < |es| ==> NewPartial(m, db, id, es[i]))
    && (forall i, j :: 0 <= i < j < |es| ==> es[i].eventId != es[j].eventId && ExecutionKey(es[i]) != ExecutionKey(es[j]))
    && TotalQuantity(es) <= db.orders[id].remaining
  }

  function Handles(es: seq<BrokerEvent>): (cs: seq<Command>)
    ensures |cs| == |es| && forall i :: 0 <= i < |es| ==> cs[i] == Handle(es[i])
  {
    if es == [] then [] else Handles(es[..|es| - 1]) + [Handle(es[|es| - 1])]
  }

  ghost function Deliver(m: Storage, db: Db, es: seq<BrokerEvent>): Db { Run(m, db, Handles(es)) }

  // ---------- the books in closed form ----------

  function SettledStatus(o: Order, q: real): Status {
    if o.remaining == q then Filled else if o.status.Routed? then PartiallyFilled else o.status
  }

  /** The order after fills of total quantity q, with the given average price. */
  function FilledBy(o: Order, q: real, average: real): Order {
    o.(filled := o.filled + q, remaining := o.remaining - q, average := Some(average), status := SettledStatus(o, q))
  }

  /** The row o' is the order o after n fills of total quantity q and value v, up to the rounding of its average. */
  predicate OrderStands(m: Storage, o: Order, o': Order, n: nat, q: real, v: real) {
    && o'.average.Some?
    && o' == FilledBy(o, q, o'.average.value)
    && Within(m, ValueFilled(o') - ValueFilled(o) - v, Weight(n, o'.filled))
  }

  /** The account after n fills of total quantity q and total value v. */
  function PaidBy(a: Account, o: Order, n: nat, q: real, v: real): Account {
    if o.side.Sell? then a.(cash := a.cash + v, version := a.version + n)
    else a.(cash := a.cash - v, reserved := a.reserved - Notional(q, o.price), version := a.version + n)
  }

  ghost function BookAt(db: Db, k: PositionKey): Book { BookOf(Lookup(db.positions, k)) }

  function SignedBy(side: Side, x: real): real { if side.Buy? then x else -x }

  /** The book after n fills, up to the rounding of its average and its realized profit. */
  predicate BookStands(m: Storage, side: Side, b: Book, b': Book, n: nat, q: real, v: real) {
    && b'.net == b.net + SignedBy(side, q)
    && Within(m, Invested(b') - Invested(b) - SignedBy(side, v), Weight(n, 1.0 + Abs(b.net) + q))
  }

  /** Where the books of one order stand after a batch of total quantity q and value v. */
  ghost predicate Stands(m: Storage, db: Db, after: Db, id: Uuid, n: nat, q: real, v: real)
    requires id in db.orders && db.orders[id].accountId in db.accounts
  {
    var o := db.orders[id];
    && id in after.orders
    && after.orders == db.orders[id := after.orders[id]]
    && OrderStands(m, o, after.orders[id], n, q, v)
    && after.accounts == db.accounts[o.accountId := PaidBy(db.accounts[o.accountId], o, n, q, v)]
    && after.quotes == db.quotes
    && BookStands(m, o.side, BookAt(db, o.Key()), BookAt(after, o.Key()), n, q, v)
    && (forall k :: k != o.Key() ==> Lookup(after.positions, k) == Lookup(db.positions, k))
  }

  // ---------- one callback ----------

  lemma OneOutcome(m: Storage, o: Order, q: real, p: real)
    requires OrderOk(m, o) && Working(o.status) && !o.timeInForce.Ioc? && 0.0 < q <= o.remaining && Clean(m, q)
    ensures OrderStands(m, o, StoreOrder(m, FillOutcome(o, q, p)), 1, q, Notional(q, p))
  {
    hide Stored;
    FillOutcomeRow(m, o, q, p);
    hide OrderOk;
    hide ValueFilled;
    hide Notional;
    var s := StoreOrder(m, FillOutcome(o, q, p));
    assert Weight(1, s.filled) == s.filled;
    hide Within;
  }

  lemma OneApplied(m: Storage, db: Db, id: Uuid, e: BrokerEvent)
    requires Inv(m, db) && id in db.orders && NewPartial(m, db, id, e) && Backed(db, id)
    requires Working(db.orders[id].status) && !db.orders[id].timeInForce.Ioc? && e.quantity <= db.orders[id].remaining
    ensures Step(m, db, Handle(e)).outcome == Ok(Applied(true))
    ensures Fillable(m, db, e) && Step(m, db, Handle(e)).db == Commit(m, db, FillChange(m, db, e))
  {
    hide Inv;
    hide FillVerdict;
    hide Commit;
    hide Stored;
    BackedFillCommits(m, db, e);
  }

  lemma OneAccount(m: Storage, a: Account, o: Order, q: real, p: real)
    requires o.filled + q != 0.0 && !o.timeInForce.Ioc? && FillAccount(a, o, q, p).Some?
    requires Clean(m, a.cash) && Clean(m, a.reserved)
    requires Clean(m, Notional(q, p)) && (o.side.Buy? ==> Clean(m, Notional(q, o.price)))
    ensures StoreAccount(m, FillAccount(a, o, q, p).value) == PaidBy(a, o, 1, q, Notional(q, p))
  {
    hide WithFill;
    hide Stored;
    hide Notional;
    CleanSum(m, a.cash, Notional(q, p));
    if o.side.Buy? {
      CleanSum(m, a.reserved, Notional(q, o.price));
    }
  }

  /** What one applied callback writes, in closed form. */
  lemma OneChange(m: Storage, db: Db, id: Uuid, e: BrokerEvent)
    requires Inv(m, db) && id in db.orders && NewPartial(m, db, id, e) && Fillable(m, db, e)
    requires !db.orders[id].timeInForce.Ioc? && e.quantity <= db.orders[id].remaining
    ensures db.orders[id].accountId in db.accounts
    ensures var o, q, p, c := db.orders[id], e.quantity, e.price.value, FillChange(m, db, e);
      && c.orderId == id && c.account.Some? && c.order.Key() == o.Key() && c.order.accountId == o.accountId
      && OrderStands(m, o, StoreOrder(m, c.order), 1, q, Notional(q, p))
      && StoreAccount(m, c.account.value) == PaidBy(db.accounts[o.accountId], o, 1, q, Notional(q, p))
      && c.position == Some(Execute(Lookup(db.positions, o.Key()), MarkOf(db.quotes, o.symbol), Trade(o.side, q, p)))
      && c.fill == Some(Fill(id, e.eventId, ExecutionKey(e), q, p))
      && c.processed == AppliedRow(e)
  {
    hide Inv;
    hide FillVerdict;
    hide FillIsFresh;
    hide Execute;
    hide AccountChecks;
    hide OrderChecks;
    hide Stored;
    var o, q, p := db.orders[id], e.quantity, e.price.value;
    OrderOf(m, db, id);
    AccountIsKnown(m, db, id);
    AccountRowOk(m, db, o.accountId);
    FillWrites(m, e, ViewOf(db, Handle(e)));
    OneOutcome(m, o, q, p);
    hide OrderOk;
    hide OrderStands;
    hide StoreOrder;
    OneAccount(m, db.accounts[o.accountId], o, q, p);
    hide PaidBy;
    hide FillAccount;
    hide StoreAccount;
    hide Settle;
  }

  lemma BooksInv(m: Storage, db: Db)
    requires Inv(m, db)
    ensures PositionsInv(m, db) && FillsInv(m, db)
  {
    hide PositionsInv;
    hide FillsInv;
  }

  /** What one stored fill does to the book of its position. */
  lemma OneBook(m: Storage, b: Book, t: Trade)
    requires t.quantity > 0.0 && Clean(m, t.quantity) && Clean(m, b.net)
    ensures BookStands(m, t.side, b, StoredBook(m, AfterFill(b, t)), 1, t.quantity, Notional(t.quantity, t.price))
  {
    hide Stored;
    hide AfterFill;
    hide Invested;
    StoredFillDrift(m, b, t);
    var r := StoredBook(m, AfterFill(b, t));
    hide StoredBook;
    assert t.Flow() == SignedBy(t.side, Notional(t.quantity, t.price));
    WithinWeaken(m, Invested(r) - Invested(b) - t.Flow(), 1.0 + Abs(r.net), Weight(1, 1.0 + Abs(b.net) + t.quantity));
    hide Within;
    hide Notional;
  }

  lemma OnePosition(m: Storage, db: Db, k: PositionKey, mark: Option<real>, t: Trade)
    requires Inv(m, db) && t.quantity > 0.0 && Clean(m, t.quantity)
    ensures BookStands(m, t.side, BookAt(db, k),
                       BookOf(Some(StorePosition(m, Execute(Lookup(db.positions, k), mark, t)))),
                       1, t.quantity, Notional(t.quantity, t.price))
  {
    hide Inv;
    hide Stored;
    hide AfterFill;
    hide BookStands;
    assert PositionsInv(m, db) && FillsInv(m, db) by { BooksInv(m, db); }
    NetIsClean(m, db, k);
    hide PositionsInv;
    hide FillsInv;
    OneBook(m, BookAt(db, k), t);
    hide Unrealized;
  }

  lemma OneStands(m: Storage, db: Db, id: Uuid, e: BrokerEvent)
    requires Inv(m, db) && id in db.orders && NewPartial(m, db, id, e) && Backed(db, id)
    requires Working(db.orders[id].status) && !db.orders[id].timeInForce.Ioc? && e.quantity <= db.orders[id].remaining
    ensures Stands(m, db, Step(m, db, Handle(e)).db, id, 1, e.quantity, Notional(e.quantity, PriceOf(e)))
    ensures var after := Step(m, db, Handle(e)).db;
      && after.processed.Keys == db.processed.Keys + {e.eventId}
      && after.fills == db.fills + [Fill(id, e.eventId, ExecutionKey(e), e.quantity, PriceOf(e))]
  {
    hide Inv;
    hide Step;
    hide Fillable;
    hide FillChange;
    hide FillIsFresh;
    hide Execute;
    hide Stored;
    hide Notional;
    OneApplied(m, db, id, e);
    OneChange(m, db, id, e);
    var o := db.orders[id];
    OnePosition(m, db, o.Key(), MarkOf(db.quotes, o.symbol), Trade(o.side, e.quantity, e.price.value));
    hide BookStands;
    hide StorePosition;
    hide OrderStands;
    hide StoreOrder;
    hide PaidBy;
  }

  /** What is left of the order stays covered by what is left of the reservation. */
  lemma StaysBacked(m: Storage, db: Db, after: Db, id: Uuid, q: real, v: real)
    requires Inv(m, db) && Inv(m, after) && Backed(db, id) && Working(db.orders[id].status)
    requires Stands(m, db, after, id, 1, q, v)
    ensures Backed(after, id)
  {
    hide Inv;
    hide Within;
    hide BookStands;
    var o, o' := db.orders[id], after.orders[id];
    AccountRowOk(m, after, o.accountId);
    assert Notional(o'.remaining, o.price) == Notional(o.remaining, o.price) - Notional(q, o.price);
    hide Notional;
    hide ValueFilled;
  }

  // ---------- any number of callbacks ----------

  lemma FilledTwice(m: Storage, o: Order, mid: Order, o': Order, n: nat, q: real, v: real, q2: real, v2: real)
    requires o.filled >= 0.0 && q > 0.0 && q2 > 0.0 && q != o.remaining
    requires OrderStands(m, o, mid, n, q, v) && OrderStands(m, mid, o', 1, q2, v2)
    ensures OrderStands(m, o, o', n + 1, q + q2, v + v2)
  {
    hide ValueFilled;
    WithinSum(m, ValueFilled(mid) - ValueFilled(o) - v, Weight(n, mid.filled),
              ValueFilled(o') - ValueFilled(mid) - v2, Weight(1, o'.filled));
    WeightsAdd(n, mid.filled, o'.filled);
    assert Weight(1, o'.filled) == o'.filled;
    hide Weight;
    WithinWeaken(m, ValueFilled(o') - ValueFilled(o) - (v + v2), Weight(n, mid.filled) + o'.filled, Weight(n + 1, o'.filled));
    hide Within;
  }

  lemma PaidTwice(a: Account, o: Order, mid: Order, n: nat, q: real, v: real, q2: real, v2: real)
    requires mid.side == o.side && mid.price == o.price
    ensures PaidBy(PaidBy(a, o, n, q, v), mid, 1, q2, v2) == PaidBy(a, o, n + 1, q + q2, v + v2)
  {
    assert Notional(q + q2, o.price) == Notional(q, o.price) + Notional(q2, o.price);
  }

  lemma BookTwice(m: Storage, side: Side, b: Book, mid: Book, b': Book, n: nat, q: real, v: real, q2: real, v2: real)
    requires q > 0.0 && q2 > 0.0
    requires BookStands(m, side, b, mid, n, q, v) && BookStands(m, side, mid, b', 1, q2, v2)
    ensures BookStands(m, side, b, b', n + 1, q + q2, v + v2)
  {
    hide Invested;
    var x, y, z := 1.0 + Abs(b.net) + q, 1.0 + Abs(mid.net) + q2, 1.0 + Abs(b.net) + (q + q2);
    assert y <= z;
    WithinSum(m, Invested(mid) - Invested(b) - SignedBy(side, v), Weight(n, x),
              Invested(b') - Invested(mid) - SignedBy(side, v2), Weight(1, y));
    WeightsAdd(n, x, z);
    assert Weight(1, y) == y;
    hide Weight;
    WithinWeaken(m, Invested(b') - Invested(b) - SignedBy(side, v + v2), Weight(n, x) + y, Weight(n + 1, z));
    hide Within;
  }

  lemma StandsTwice(m: Storage, db: Db, mid: Db, after: Db, id: Uuid, n: nat, q: real, v: real, q2: real, v2: real)
    requires id in db.orders && db.orders[id].accountId in db.accounts
    requires db.orders[id].filled >= 0.0 && q > 0.0 && q2 > 0.0 && q != db.orders[id].remaining
    requires Stands(m, db, mid, id, n, q, v) && Stands(m, mid, after, id, 1, q2, v2)
    ensures Stands(m, db, after, id, n + 1, q + q2, v + v2)
  {
    var o := db.orders[id];
    assert mid.orders[id].Key() == o.Key() && mid.orders[id].side == o.side && mid.orders[id].price == o.price;
    FilledTwice(m, o, mid.orders[id], after.orders[id], n, q, v, q2, v2);
    PaidTwice(db.accounts[o.accountId], o, mid.orders[id], n, q, v, q2, v2);
    BookTwice(m, o.side, BookAt(db, o.Key()), BookAt(mid, o.Key()),
              BookAt(after, o.Key()), n, q, v, q2, v2);
    assert mid.orders[id].accountId == o.accountId;
    hide OrderStands;
    hide PaidBy;
    hide BookStands;
  }

  lemma {:induction false} TotalGrows(es: seq<BrokerEvent>)
    requires forall i :: 0 <= i < |es| ==> es[i].quantity > 0.0
    ensures es != [] ==> TotalQuantity(es) > 0.0
  {
    if es != [] {
      TotalGrows(es[..|es| - 1]);
    }
  }

  lemma PrefixBatch(m: Storage, db: Db, id: Uuid, es: seq<BrokerEvent>)
    requires Batch(m, db, id, es) && es != []
    ensures Batch(m, db, id, es[..|es| - 1])
    ensures TotalQuantity(es[..|es| - 1]) < db.orders[id].remaining
  {
    hide FillIsFresh;
    assert NewPartial(m, db, id, es[|es| - 1]);
  }

  /** What the callbacks already delivered leave untouched for one still to come. */
  ghost predicate StillNew(db: Db, after: Db, es: seq<BrokerEvent>) {
    && (forall x :: x in after.processed ==> x in db.processed || exists i :: 0 <= i < |es| && es[i].eventId == x)
    && |after.fills| == |db.fills| + |es|
    && db.fills <= after.fills
    && (forall i :: 0 <= i < |es| ==>
          after.fills[|db.fills| + i].eventId == es[i].eventId && after.fills[|db.fills| + i].executionId == ExecutionKey(es[i]))
  }

  lemma NextIsNew(m: Storage, db: Db, after: Db, id: Uuid, es: seq<BrokerEvent>, e: BrokerEvent)
    requires Batch(m, db, id, es + [e]) && StillNew(db, after, es)
    requires id in after.orders && after.orders[id].side == db.orders[id].side && after.orders[id].price == db.orders[id].price
    ensures NewPartial(m, after, id, e)
  {
    var all := es + [e];
    assert NewPartial(m, db, id, all[|es|]);
    assert forall i :: 0 <= i < |es| ==> all[i] == es[i];
    forall i | 0 <= i < |after.fills|
      ensures after.fills[i].eventId != e.eventId && after.fills[i].executionId != ExecutionKey(e)
    {
      if i >= |db.fills| {
        var j := i - |db.fills|;
        assert all[j].eventId != all[|es|].eventId && ExecutionKey(all[j]) != ExecutionKey(all[|es|]);
      }
    }
  }

  lemma NewStays(db: Db, mid: Db, after: Db, id: Uuid, es: seq<BrokerEvent>, e: BrokerEvent)
    requires StillNew(db, mid, es)
    requires after.processed.Keys == mid.processed.Keys + {e.eventId}
    requires after.fills == mid.fills + [Fill(id, e.eventId, ExecutionKey(e), e.quantity, PriceOf(e))]
    ensures StillNew(db, after, es + [e])
  {
    var all := es + [e];
    forall x | x in after.processed ensures x in db.processed || exists i :: 0 <= i < |all| && all[i].eventId == x {
      if x == e.eventId {
        assert all[|es|].eventId == x;
      } else if x !in db.processed {
        assert x in mid.processed;
        var i :| 0 <= i < |es| && es[i].eventId == x;
        assert all[i].eventId == x;
      }
    }
  }

  lemma DeliverSnoc(m: Storage, db: Db, es: seq<BrokerEvent>)
    requires es != []
    ensures Deliver(m, db, es) == Step(m, Deliver(m, db, es[..|es| - 1]), Handle(es[|es| - 1])).db
  {
    assert Handles(es)[..|es| - 1] == Handles(es[..|es| - 1]);
  }

  /** One more callback on top of those already delivered. */
  lemma OneMore(m: Storage, db: Db, mid: Db, id: Uuid, rest: seq<BrokerEvent>, e: BrokerEvent)
    requires Inv(m, mid) && Batch(m, db, id, rest + [e]) && StillNew(db, mid, rest) && Backed(mid, id)
    requires var o, o' := db.orders[id], mid.orders[id];
      && Working(o'.status) && !o'.timeInForce.Ioc? && o'.side == o.side && o'.price == o.price
      && e.quantity <= o'.remaining
    ensures var r := Step(m, mid, Handle(e));
      && r.outcome == Ok(Applied(true))
      && Inv(m, r.db) && Backed(r.db, id)
      && StillNew(db, r.db, rest + [e])
      && Stands(m, mid, r.db, id, 1, e.quantity, Notional(e.quantity, PriceOf(e)))
  {
    hide Inv;
    hide Step;
    hide Stands;
    hide FillIsFresh;
    hide Stored;
    NextIsNew(m, db, mid, id, rest, e);
    assert CleanCommand(m, Handle(e));
    OneApplied(m, mid, id, e);
    OneStands(m, mid, id, e);
    StepKeepsInv(m, mid, Handle(e));
    StaysBacked(m, mid, Step(m, mid, Handle(e)).db, id, e.quantity, Notional(e.quantity, PriceOf(e)));
    hide Batch;
    hide Backed;
    NewStays(db, mid, Step(m, mid, Handle(e)).db, id, rest, e);
  }

  /**
   * Every callback of the batch is applied, and the books stand at the batch's totals: order quantities,
   * status, account and net quantity exactly, the averages and the realized profit up to their rounding.
   */
  lemma {:induction false} BatchIsApplied(m: Storage, db: Db, id: Uuid, es: seq<BrokerEvent>)
    requires Inv(m, db) && Batch(m, db, id, es) && (m.Exact? || Backed(db, id))
    ensures Inv(m, Deliver(m, db, es)) && StillNew(db, Deliver(m, db, es), es) && Backed(Deliver(m, db, es), id)
    ensures db.orders[id].accountId in db.accounts && db.orders[id].filled >= 0.0
    ensures es != [] ==> TotalQuantity(es) > 0.0
    ensures es != [] ==> Stands(m, db, Deliver(m, db, es), id, |es|, TotalQuantity(es), TotalValue(es))
    ensures es != [] ==> Step(m, Deliver(m, db, es[..|es| - 1]), Handle(es[|es| - 1])).outcome == Ok(Applied(true))
  {
    hide Inv;
    hide Step;
    hide Deliver;
    hide Stands;
    hide StillNew;
    hide NewPartial;
    hide Backed;
    StartOfBatch(m, db, id);
    if es != [] {
      var rest, e := es[..|es| - 1], es[|es| - 1];
      var mid := Deliver(m, db, rest);
      PrefixBatch(m, db, id, es);
      BatchIsApplied(m, db, id, rest);
      DeliverSnoc(m, db, es);
      StandsOrder(m, db, mid, id, rest);
      assert es == rest + [e];
      QuantitiesPositive(m, db, id, es);
      TotalGrows(es);
      OneMore(m, db, mid, id, rest, e);
      if rest == [] {
        assert TotalQuantity(rest) == 0.0 && TotalValue(rest) == 0.0;
      } else {
        StandsTwice(m, db, mid, Deliver(m, db, es), id, |rest|, TotalQuantity(rest), TotalValue(rest),
                    e.quantity, Notional(e.quantity, PriceOf(e)));
      }
    }
  }

  lemma StartOfBatch(m: Storage, db: Db, id: Uuid)
    requires Inv(m, db) && id in db.orders && (m.Exact? || Backed(db, id))
    ensures db.orders[id].accountId in db.accounts && db.orders[id].filled >= 0.0 && Backed(db, id)
    ensures Deliver(m, db, []) == db && StillNew(db, db, [])
  {
    hide Inv;
    AccountIsKnown(m, db, id);
    OrderOf(m, db, id);
    if m.Exact? {
      ExactIsBacked(db, id);
    }
  }

  lemma QuantitiesPositive(m: Storage, db: Db, id: Uuid, es: seq<BrokerEvent>)
    requires Batch(m, db, id, es)
    ensures forall i :: 0 <= i < |es| ==> es[i].quantity > 0.0
  {
    hide FillIsFresh;
    forall i | 0 <= i < |es| ensures es[i].quantity > 0.0 {
      assert NewPartial(m, db, id, es[i]);
    }
  }

  /** Before the last callback the order is still working, with room for it. */
  lemma StandsOrder(m: Storage, db: Db, mid: Db, id: Uuid, rest: seq<BrokerEvent>)
    requires Batch(m, db, id, rest) && TotalQuantity(rest) < db.orders[id].remaining
    requires db.orders[id].accountId in db.accounts && db.orders[id].filled >= 0.0
    requires rest == [] ==> mid == db
    requires rest != [] ==> TotalQuantity(rest) > 0.0 && Stands(m, db, mid, id, |rest|, TotalQuantity(rest), TotalValue(rest))
    ensures id in mid.orders
    ensures var o, o' := db.orders[id], mid.orders[id];
      && Working(o'.status) && !o'.timeInForce.Ioc? && o'.side == o.side && o'.price == o.price
      && o'.remaining == o.remaining - TotalQuantity(rest)
  {
    hide BookStands;
    hide Stored;
    hide Within;
  }

  // ---------- permutations ----------

  lemma {:induction false} TotalsAppend(xs: seq<BrokerEvent>, ys: seq<BrokerEvent>)
    ensures TotalQuantity(xs + ys) == TotalQuantity(xs) + TotalQuantity(ys)
    ensures TotalValue(xs + ys) == TotalValue(xs) + TotalValue(ys)
  {
    hide Notional;
    if ys == [] {
      assert xs + ys == xs;
    } else {
      assert (xs + ys)[..|xs + ys| - 1] == xs + ys[..|ys| - 1];
      TotalsAppend(xs, ys[..|ys| - 1]);
    }
  }

  lemma TotalsWithout(es: seq<BrokerEvent>, i: nat)
    requires i < |es|
    ensures var rest := es[..i] + es[i + 1..];
      && TotalQuantity(es) == TotalQuantity(rest) + es[i].quantity
      && TotalValue(es) == TotalValue(rest) + Notional(es[i].quantity, PriceOf(es[i]))
      && multiset(rest) == multiset(es) - multiset{es[i]}
  {
    hide Notional;
    var one := [es[i]];
    assert es == es[..i] + one + es[i + 1..];
    TotalsAppend(es[..i] + one, es[i + 1..]);
    TotalsAppend(es[..i], one);
    TotalsAppend(es[..i], es[i + 1..]);
  }

  lemma {:induction false} TotalsPermute(xs: seq<BrokerEvent>, ys: seq<BrokerEvent>)
    requires multiset(xs) == multiset(ys)
    ensures TotalQuantity(xs) == TotalQuantity(ys) && TotalValue(xs) == TotalValue(ys) && |xs| == |ys|
    decreases |xs|
  {
    if xs == [] {
      assert |multiset(ys)| == 0;
    } else {
      hide TotalQuantity;
      hide TotalValue;
      assert xs[0] in multiset(ys);
      var i :| 0 <= i < |ys| && ys[i] == xs[0];
      TotalsWithout(xs, 0);
      TotalsWithout(ys, i);
      TotalsPermute(xs[..0] + xs[1..], ys[..i] + ys[i + 1..]);
    }
  }

  lemma TwiceCounts(es: seq<BrokerEvent>, i: nat, j: nat)
    requires i < j < |es| && es[i] == es[j]
    ensures multiset(es)[es[i]] >= 2
  {
    assert es == es[..i] + [es[i]] + es[i + 1..j] + [es[j]] + es[j + 1..];
  }

  lemma CountsTwice(es: seq<BrokerEvent>, e: BrokerEvent) returns (i: nat, j: nat)
    requires multiset(es)[e] >= 2
    ensures i < j < |es| && es[i] == es[j] == e
  {
    assert e in multiset(es);
    i :| 0 <= i < |es| && es[i] == e && e !in es[..i] by {
      FirstIndex(es, e);
    }
    assert es == es[..i] + [e] + es[i + 1..];
    assert multiset(es) == multiset(es[..i]) + multiset{e} + multiset(es[i + 1..]);
    assert e in multiset(es[i + 1..]);
    var k :| 0 <= k < |es[i + 1..]| && es[i + 1..][k] == e;
    j := i + 1 + k;
  }

  lemma {:induction false} FirstIndex(es: seq<BrokerEvent>, e: BrokerEvent)
    requires e in es
    ensures exists i: nat :: i < |es| && es[i] == e && e !in es[..i]
  {
    if e in es[..|es| - 1] {
      var shorter := es[..|es| - 1];
      FirstIndex(shorter, e);
      var i: nat :| i < |shorter| && shorter[i] == e && e !in shorter[..i];
      assert es[..i] == shorter[..i] && es[i] == e;
    } else {
      assert es[|es| - 1] == e;
    }
  }

  lemma AtMostOnce(m: Storage, db: Db, id: Uuid, es: seq<BrokerEvent>, e: BrokerEvent)
    requires Batch(m, db, id, es)
    ensures multiset(es)[e] <= 1
  {
    hide NewPartial;
    if multiset(es)[e] >= 2 {
      var i, j := CountsTwice(es, e);
      assert false;
    }
  }

  /** Being a batch does not depend on the order of the callbacks. */
  lemma PermutedBatch(m: Storage, db: Db, id: Uuid, xs: seq<BrokerEvent>, ys: seq<BrokerEvent>)
    requires Batch(m, db, id, xs) && multiset(xs) == multiset(ys)
    ensures Batch(m, db, id, ys)
  {
    hide FillIsFresh;
    TotalsPermute(xs, ys);
    forall i | 0 <= i < |ys| ensures NewPartial(m, db, id, ys[i]) {
      assert ys[i] in multiset(xs);
    }
    forall i, j | 0 <= i < j < |ys|
      ensures ys[i].eventId != ys[j].eventId && ExecutionKey(ys[i]) != ExecutionKey(ys[j])
    {
      AtMostOnce(m, db, id, xs, ys[i]);
      if ys[i] == ys[j] {
        TwiceCounts(ys, i, j);
        assert false;
      }
      assert ys[i] in multiset(xs) && ys[j] in multiset(xs);
      var a :| 0 <= a < |xs| && xs[a] == ys[i];
      var b :| 0 <= b < |xs| && xs[b] == ys[j];
      assert a != b;
    }
  }

  /** Two rows an order can stand at: they differ in their averages by the rounding of each fill at most. */
  lemma SameOrder(m: Storage, o: Order, x: Order, y: Order, n: nat, q: real, v: real)
    requires OrderStands(m, o, x, n, q, v) && OrderStands(m, o, y, n, q, v) && o.filled + q > 0.0
    ensures x == y.(average := x.average) && x.average.Some? && y.average.Some?
    ensures Within(m, x.average.value - y.average.value, 2.0 * n as real)
  {
    var w, d := Weight(n, x.filled), x.average.value - y.average.value;
    WithinSum(m, ValueFilled(x) - ValueFilled(o) - v, w, ValueFilled(y) - ValueFilled(o) - v, w);
    AverageApart(x, y, n);
    assert (ValueFilled(x) - ValueFilled(o) - v) - (ValueFilled(y) - ValueFilled(o) - v) == ValueFilled(x) - ValueFilled(y);
    hide ValueFilled;
    hide Weight;
    hide Notional;
    WithinDivided(m, x.filled, d, 2.0 * n as real);
  }

  lemma AverageApart(x: Order, y: Order, n: nat)
    requires x.average.Some? && y.average.Some? && x.filled == y.filled
    ensures ValueFilled(x) - ValueFilled(y) == Notional(x.filled, x.average.value - y.average.value)
    ensures Weight(n, x.filled) + Weight(n, x.filled) == Notional(x.filled, 2.0 * n as real)
  {
  }

  lemma WithinDivided(m: Storage, f: real, d: real, k: real)
    requires f > 0.0 && Within(m, Notional(f, d), Notional(f, k))
    ensures Within(m, d, k)
  {
    if m.Exact? {
      assert d == 0.0;
    } else {
      var e := 0.000000005 * k;
      assert 0.000000005 * (f * k) == f * e;
      assert f * (e - d) == f * e - f * d && f * (d + e) == f * d + f * e;
      SignOfProduct(f, e - d);
      SignOfProduct(f, d + e);
    }
  }

  lemma SameProfit(m: Storage, side: Side, b: Book, x: Book, y: Book, n: nat, q: real, v: real, mark: real)
    requires BookStands(m, side, b, x, n, q, v) && BookStands(m, side, b, y, n, q, v)
    ensures x.net == y.net && Within(m, TotalPnl(x, mark) - TotalPnl(y, mark), 2.0 * Weight(n, 1.0 + Abs(b.net) + q))
  {
    TotalPnlFromFlow(x, mark);
    TotalPnlFromFlow(y, mark);
    hide Invested;
    hide TotalPnl;
    var w := Weight(n, 1.0 + Abs(b.net) + q);
    hide Weight;
    var dx, dy := Invested(x) - Invested(b) - SignedBy(side, v), Invested(y) - Invested(b) - SignedBy(side, v);
    WithinSum(m, dy, w, dx, w);
    assert mark * x.net == mark * y.net;
    assert TotalPnl(x, mark) - TotalPnl(y, mark) == dy - dx;
    assert w + w == 2.0 * w;
    hide Within;
  }

  /** Two states agree on the books, up to n roundings of each average and realized profit. */
  ghost predicate Agree(m: Storage, db: Db, x: Db, y: Db, id: Uuid, n: nat, q: real) {
    && x.accounts == y.accounts && x.quotes == y.quotes
    && x.orders.Keys == y.orders.Keys && id in x.orders
    && (forall i :: i in x.orders && i != id ==> x.orders[i] == y.orders[i])
    && x.orders[id] == y.orders[id].(average := x.orders[id].average)
    && (x.orders[id].average.Some? <==> y.orders[id].average.Some?)
    && Within(m, AverageOf(x.orders[id]) - AverageOf(y.orders[id]), 2.0 * n as real)
    && (forall k :: SameBook(m, BookAt(db, k), BookAt(x, k), BookAt(y, k), n, q))
  }

  function AverageOf(o: Order): real { if o.average.Some? then o.average.value else 0.0 }

  /** Equal net quantities, and equal total profit at every mark up to 2n roundings of average and profit. */
  ghost predicate SameBook(m: Storage, b: Book, x: Book, y: Book, n: nat, q: real) {
    && x.net == y.net
    && forall mark :: Within(m, TotalPnl(x, mark) - TotalPnl(y, mark), 2.0 * Weight(n, 1.0 + Abs(b.net) + q))
  }

  /** The books of every position, in two states a batch can end in. */
  lemma SameBookAt(m: Storage, db: Db, x: Db, y: Db, id: Uuid, n: nat, q: real, v: real, k: PositionKey)
    requires id in db.orders && db.orders[id].accountId in db.accounts && q > 0.0
    requires Stands(m, db, x, id, n, q, v) && Stands(m, db, y, id, n, q, v)
    ensures SameBook(m, BookAt(db, k), BookAt(x, k), BookAt(y, k), n, q)
  {
    hide OrderStands;
    hide PaidBy;
    var o := db.orders[id];
    var b, c, d := BookAt(db, k), BookAt(x, k), BookAt(y, k);
    if k == o.Key() {
      ProfitAtEveryMark(m, o.side, b, c, d, n, q, v);
    } else {
      SameIsSame(m, b, c, n, q);
    }
    hide BookStands;
    hide SameBook;
  }

  lemma ProfitAtEveryMark(m: Storage, side: Side, b: Book, x: Book, y: Book, n: nat, q: real, v: real)
    requires BookStands(m, side, b, x, n, q, v) && BookStands(m, side, b, y, n, q, v)
    ensures SameBook(m, b, x, y, n, q)
  {
    hide Within;
    hide TotalPnl;
    hide Weight;
    forall mark ensures Within(m, TotalPnl(x, mark) - TotalPnl(y, mark), 2.0 * Weight(n, 1.0 + Abs(b.net) + q)) {
      SameProfit(m, side, b, x, y, n, q, v, mark);
    }
    assert x.net == y.net;
    hide BookStands;
  }

  lemma SameBooks(m: Storage, db: Db, x: Db, y: Db, id: Uuid, n: nat, q: real, v: real)
    requires id in db.orders && db.orders[id].accountId in db.accounts && db.orders[id].filled >= 0.0 && q > 0.0
    requires Stands(m, db, x, id, n, q, v) && Stands(m, db, y, id, n, q, v)
    ensures Agree(m, db, x, y, id, n, q)
  {
    hide BookStands;
    hide SameBook;
    hide PaidBy;
    hide TotalPnl;
    SameOrder(m, db.orders[id], x.orders[id], y.orders[id], n, q, v);
    hide OrderStands;
    hide Within;
    forall k ensures SameBook(m, BookAt(db, k), BookAt(x, k), BookAt(y, k), n, q) {
      SameBookAt(m, db, x, y, id, n, q, v, k);
    }
  }

  lemma SameIsSame(m: Storage, b: Book, c: Book, n: nat, q: real)
    requires q >= 0.0
    ensures SameBook(m, b, c, c, n, q)
  {
    NonNegativeProduct(n as real, 1.0 + Abs(b.net) + q);
    var w := 2.0 * Weight(n, 1.0 + Abs(b.net) + q);
    hide TotalPnl;
    forall mark ensures Within(m, TotalPnl(c, mark) - TotalPnl(c, mark), w) {
    }
  }

  /**
   * Any two arrival orders of the same callbacks are applied in full and end with the same accounts, the same
   * orders up to the rounding of the average price, the same net quantities, and the same total profit of every
   * position at every mark up to the rounding of averages and realized profit: in exact storage, the very same.
   */
  lemma ArrivalOrderDoesNotMatter(m: Storage, db: Db, id: Uuid, xs: seq<BrokerEvent>, ys: seq<BrokerEvent>)
    requires Inv(m, db) && Batch(m, db, id, xs) && multiset(xs) == multiset(ys) && (m.Exact? || Backed(db, id))
    ensures Agree(m, db, Deliver(m, db, xs), Deliver(m, db, ys), id, |xs|, TotalQuantity(xs))
    ensures forall i :: 0 <= i < |ys| ==>
      Step(m, Deliver(m, db, ys[..i]), Handle(ys[i])).outcome == Ok(Applied(true))
  {
    hide Inv;
    hide Step;
    hide Deliver;
    hide Backed;
    hide Agree;
    PermutedBatch(m, db, id, xs, ys);
    BatchesAgree(m, db, id, xs, ys);
    EveryOneApplied(m, db, id, ys);
  }

  /**
   * In exact storage the orders, the accounts, the net quantities and the total profit of every position at
   * every mark are the very same.
   */
  lemma ExactArrivalOrder(db: Db, id: Uuid, xs: seq<BrokerEvent>, ys: seq<BrokerEvent>, k: PositionKey, mark: real)
    requires Inv(Exact, db) && Batch(Exact, db, id, xs) && multiset(xs) == multiset(ys)
    ensures Deliver(Exact, db, xs).orders == Deliver(Exact, db, ys).orders
    ensures Deliver(Exact, db, xs).accounts == Deliver(Exact, db, ys).accounts
    ensures var b, c := BookAt(Deliver(Exact, db, xs), k), BookAt(Deliver(Exact, db, ys), k);
      b.net == c.net && TotalPnl(b, mark) == TotalPnl(c, mark)
  {
    hide Inv;
    hide Deliver;
    hide Batch;
    hide TotalPnl;
    BatchesAgree(Exact, db, id, xs, ys);
    var x, y := Deliver(Exact, db, xs), Deliver(Exact, db, ys);
    assert SameBook(Exact, BookAt(db, k), BookAt(x, k), BookAt(y, k), |xs|, TotalQuantity(xs));
    assert x.orders[id] == y.orders[id];
  }

  /** Two arrival orders of a batch end in states that agree. */
  lemma BatchesAgree(m: Storage, db: Db, id: Uuid, xs: seq<BrokerEvent>, ys: seq<BrokerEvent>)
    requires Inv(m, db) && Batch(m, db, id, xs) && multiset(xs) == multiset(ys) && (m.Exact? || Backed(db, id))
    ensures Agree(m, db, Deliver(m, db, xs), Deliver(m, db, ys), id, |xs|, TotalQuantity(xs))
  {
    hide Inv;
    hide Step;
    hide Deliver;
    hide Backed;
    hide Stands;
    hide StillNew;
    hide Agree;
    PermutedBatch(m, db, id, xs, ys);
    TotalsPermute(xs, ys);
    BatchIsApplied(m, db, id, xs);
    BatchIsApplied(m, db, id, ys);
    assert id in db.orders;
    hide Batch;
    hide TotalValue;
    if xs == [] {
      assert ys == [];
      StartOfBatch(m, db, id);
      SameState(m, db, id);
    } else {
      SameBooks(m, db, Deliver(m, db, xs), Deliver(m, db, ys), id, |xs|, TotalQuantity(xs), TotalValue(xs));
    }
  }

  lemma SameState(m: Storage, db: Db, id: Uuid)
    requires id in db.orders
    ensures Agree(m, db, db, db, id, 0, 0.0)
  {
    hide SameBook;
    hide TotalPnl;
    forall k ensures SameBook(m, BookAt(db, k), BookAt(db, k), BookAt(db, k), 0, 0.0) {
      SameIsSame(m, BookAt(db, k), BookAt(db, k), 0, 0.0);
    }
  }

  lemma {:induction false} EveryOneApplied(m: Storage, db: Db, id: Uuid, es: seq<BrokerEvent>)
    requires Inv(m, db) && Batch(m, db, id, es) && (m.Exact? || Backed(db, id))
    ensures forall i :: 0 <= i < |es| ==> Step(m, Deliver(m, db, es[..i]), Handle(es[i])).outcome == Ok(Applied(true))
  {
    hide Inv;
    hide Step;
    hide Deliver;
    hide Backed;
    if es != [] {
      var rest := es[..|es| - 1];
      PrefixBatch(m, db, id, es);
      EveryOneApplied(m, db, id, rest);
      BatchIsApplied(m, db, id, es);
      forall i | 0 <= i < |es| ensures Step(m, Deliver(m, db, es[..i]), Handle(es[i])).outcome == Ok(Applied(true)) {
        if i < |rest| {
          assert es[..i] == rest[..i] && es[i] == rest[i];
        } else {
          assert i == |es| - 1;
        }
      }
    }
  }
}
