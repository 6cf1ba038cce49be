/** A good change keeps every part of the invariant. */
module InvariantKept {
  import opened Types
  import opened Numeric
  import opened Sums
  import opened Tables
  import opened OrderRules
  import opened PositionRules
  import opened History
  import opened Transactions
  import opened Invariant

  lemma OrdersKept(m: Storage, db: Db, c: Change)
    requires OrdersInv(m, db) && OrderPart(m, db, c)
    ensures OrdersInv(m, Commit(m, db, c))
  {
    hide Stored;
    hide OrderOk;
  }

  lemma AuditKept(m: Storage, db: Db, c: Change)
    requires AuditInv(db) && AuditPart(db, c)
    ensures AuditInv(Commit(m, db, c))
  {
    hide Stored;
    hide IsPath;
    hide IsTail;
    var s := if c.orderId in db.orders then Some(db.orders[c.orderId].status) else None;
    PathExtends(db.audit, c.audit, c.orderId, s, c.order.status);
  }

  lemma ProcessedKept(m: Storage, db: Db, c: Change)
    requires ProcessedInv(db) && ProcessedPart(db, c)
    ensures ProcessedInv(Commit(m, db, c))
  {
  }

  /** Writing one order moves the account's held total by the difference of that order. */
  lemma HeldByUpdate(orders: map<Uuid, Order>, id: Uuid, o: Order, a: Uuid)
    ensures HeldBy(orders[id := o], a) == HeldBy(orders, a) + Held(o, a) - (if id in orders then Held(orders[id], a) else 0.0)
  {
    assert HeldMap(orders[id := o], a) == HeldMap(orders, a)[id := Held(o, a)];
    SumUpdate(HeldMap(orders, a), id, Held(o, a));
  }

  /** One committed change moves an account's drift by at most one half-unit, and not at all unless it writes the account. */
  lemma DriftStep(m: Storage, db: Db, c: Change, a: Uuid)
    requires OrderPart(m, db, c) && LedgerPart(m, db, c) && a in db.accounts
    ensures var db' := Commit(m, db, c);
      && a in db'.accounts
      && db'.accounts[a].version >= db.accounts[a].version
      && (db'.accounts[a].version == db.accounts[a].version ==> db'.accounts[a] == db.accounts[a] && Drift(db', a) == Drift(db, a))
      && Within(m, Drift(db', a) - Drift(db, a), 1.0)
      && (Drift(db, a) == 0.0 && Clean(m, HeldBy(db'.orders, a)) ==> Drift(db', a) == 0.0)
  {
    hide Round8;
    hide OrderOk;
    HeldByUpdate(db.orders, c.orderId, StoreOrder(m, c.order), a);
    WithinWeaken(m, 0.0, 0.0, 1.0) by {
      assert Within(m, 0.0, 0.0);
    }
  }

  lemma LedgerKept(m: Storage, db: Db, c: Change)
    requires LedgerInv(m, db) && OrderPart(m, db, c) && LedgerPart(m, db, c)
    ensures LedgerInv(m, Commit(m, db, c))
  {
    hide Stored;
    hide OrderPart;
    hide HeldBy;
    var db' := Commit(m, db, c);
    forall a | a in db'.accounts
      ensures AccountChecks(db'.accounts[a]) && db'.accounts[a].version >= 1
      ensures Clean(m, db'.accounts[a].cash) && Clean(m, db'.accounts[a].reserved)
      ensures Within(m, Drift(db', a), (db'.accounts[a].version - 1) as real)
    {
      assert a in db.accounts;
      if c.account.Some? {
        StoredIsClean(m, c.account.value.cash);
        StoredIsClean(m, c.account.value.reserved);
      }
      DriftStep(m, db, c, a);
      WithinSum(m, Drift(db, a), (db.accounts[a].version - 1) as real, Drift(db', a) - Drift(db, a), 1.0);
      if db'.accounts[a].version > db.accounts[a].version {
        WithinWeaken(m, Drift(db', a), (db.accounts[a].version - 1) as real + 1.0, (db'.accounts[a].version - 1) as real);
      }
    }
  }

  lemma TotalsGrow(m: Storage, before: Order, after: Order, fs: seq<Fill>, f: Fill)
    requires TotalsAgree(m, before, fs) && f.quantity > 0.0 && before.filled >= 0.0
    requires after.filled == before.filled + f.quantity
    requires Within(m, ValueFilled(after) - ValueFilled(before) - Notional(f.quantity, f.price), after.filled)
    ensures TotalsAgree(m, after, fs + [f])
  {
    hide ValueFilled;
    hide ValueOf;
    hide QuantityOf;
    hide Notional;
    TotalsSnoc(fs, f);
    WithinSum(m, ValueFilled(before) - ValueOf(fs), Weight(|fs|, before.filled),
              ValueFilled(after) - ValueFilled(before) - Notional(f.quantity, f.price), after.filled);
    WeightsAdd(|fs|, before.filled, after.filled);
    hide Weight;
    WithinWeaken(m, ValueFilled(after) - ValueOf(fs + [f]), Weight(|fs|, before.filled) + after.filled, Weight(|fs| + 1, after.filled));
    hide Within;
  }

  lemma {:induction false} NoFillsElsewhere(fills: seq<Fill>, id: Uuid)
    requires forall i :: 0 <= i < |fills| ==> fills[i].orderId != id
    ensures FillsOf(fills, id) == []
  {
    if fills != [] {
      NoFillsElsewhere(fills[..|fills| - 1], id);
    }
  }

  /** The order a change is about. */
  lemma OwnTotalsKept(m: Storage, db: Db, c: Change, fs: seq<Fill>)
    requires c.orderId in db.orders && c.fill.Some? && FillPart(m, db, c)
    requires db.orders[c.orderId].filled >= 0.0
    requires TotalsAgree(m, db.orders[c.orderId], fs)
    ensures TotalsAgree(m, StoreOrder(m, c.order), fs + [c.fill.value])
  {
    hide Stored;
    hide TotalsAgree;
    hide ValueFilled;
    hide FillIsFresh;
    TotalsGrow(m, db.orders[c.orderId], StoreOrder(m, c.order), fs, c.fill.value);
  }

  lemma TotalsKept(m: Storage, db: Db, c: Change, id: Uuid)
    requires FillsInv(m, db) && OrdersInv(m, db) && FillPart(m, db, c) && id in Commit(m, db, c).orders
    ensures TotalsAgree(m, Commit(m, db, c).orders[id], FillsOf(Commit(m, db, c).fills, id))
  {
    hide Stored;
    hide TotalsAgree;
    hide Within;
    if id != c.orderId {
      if c.fill.Some? {
        FillsOfSnoc(db.fills, StoreFill(m, c.fill.value), id);
        assert FillsOf(db.fills + [StoreFill(m, c.fill.value)], id) == FillsOf(db.fills, id);
      }
    } else if c.fill.Some? {
      FillsOfSnoc(db.fills, c.fill.value, id);
      OwnTotalsKept(m, db, c, FillsOf(db.fills, id));
    } else if id in db.orders {
      SameTotals(m, db.orders[id], StoreOrder(m, c.order), FillsOf(db.fills, id));
    } else {
      NoFillsElsewhere(db.fills, id);
      NoTotals(m, StoreOrder(m, c.order));
    }
  }

  lemma SameTotals(m: Storage, before: Order, after: Order, fs: seq<Fill>)
    requires TotalsAgree(m, before, fs) && after.filled == before.filled && after.average == before.average
    ensures TotalsAgree(m, after, fs)
  {
  }

  lemma NoTotals(m: Storage, o: Order)
    requires o.filled == 0.0
    ensures TotalsAgree(m, o, [])
  {
  }

  lemma FillRowsKept(m: Storage, db: Db, c: Change)
    requires FillsInv(m, db) && ProcessedPart(db, c) && FillPart(m, db, c)
    requires c.fill.Some? ==> Clean(m, c.fill.value.quantity)
    ensures var db' := Commit(m, db, c); forall i :: 0 <= i < |db'.fills| ==> FillRowOk(m, db', db'.fills[i])
  {
    hide Stored;
    hide TotalsAgree;
    hide ValueFilled;
    var db' := Commit(m, db, c);
    forall i | 0 <= i < |db'.fills| ensures FillRowOk(m, db', db'.fills[i]) {
      if i < |db.fills| {
        assert FillRowOk(m, db, db.fills[i]);
      }
    }
  }

  lemma FillsKept(m: Storage, db: Db, c: Change)
    requires FillsInv(m, db) && OrdersInv(m, db) && ProcessedPart(db, c) && FillPart(m, db, c)
    requires c.fill.Some? ==> Clean(m, c.fill.value.quantity)
    ensures FillsInv(m, Commit(m, db, c))
  {
    hide Stored;
    hide TotalsAgree;
    hide FillRowOk;
    hide OrderOk;
    hide ValueFilled;
    var db' := Commit(m, db, c);
    forall id | id in db'.orders ensures TotalsAgree(m, db'.orders[id], FillsOf(db'.fills, id)) {
      TotalsKept(m, db, c, id);
    }
    FillRowsKept(m, db, c);
  }

  lemma OwnEvents(db: Db, c: Change)
    requires AuditPart(db, c)
    ensures forall i :: 0 <= i < |c.audit| ==> c.audit[i].orderId == c.orderId
  {
  }

  /** The order's event path, its outbox calls and their counts stay in step. */
  lemma OutboxKept(m: Storage, db: Db, c: Change)
    requires OutboxInv(db) && AuditInv(db) && OutboxPart(db, c) && AuditPart(db, c) && OrderPart(m, db, c)
    ensures OutboxInv(Commit(m, db, c))
  {
    hide Stored;
    hide IsPath;
    hide OrderPart;
    hide CallsFit;
    hide IsTail;
    var db' := Commit(m, db, c);
    hide EventsOf;
    hide Submits;
    hide Cancels;
    hide OutboxPart;
    hide AuditPart;
    forall id
      ensures if id in db'.orders then CallsFit(EventsOf(db'.audit, id), db'.orders[id], Submits(db'.outbox, id), Cancels(db'.outbox, id))
              else Submits(db'.outbox, id) == 0 && Cancels(db'.outbox, id) == 0
    {
      CallsElsewhere(db, c, id);
      if id == c.orderId {
        CallsFitKept(m, db, c);
      }
    }
  }

  /** The new entries and calls are all about the change's own order. */
  lemma CallsElsewhere(db: Db, c: Change, id: Uuid)
    requires AuditPart(db, c) && OutboxPart(db, c)
    ensures EventsOf(db.audit + c.audit, id) == (if id == c.orderId then EventsOf(db.audit, id) + c.audit else EventsOf(db.audit, id))
    ensures id != c.orderId ==>
      Submits(db.outbox + c.outbox, id) == Submits(db.outbox, id) && Cancels(db.outbox + c.outbox, id) == Cancels(db.outbox, id)
  {
    OwnEvents(db, c);
    EventsOfOwn(c.audit, c.orderId);
    EventsOfAppend(db.audit, c.audit, id);
    CallsAppend(db.outbox, c.outbox, id);
  }

  lemma CallsAppend(outbox: seq<Outbound>, more: seq<Outbound>, id: Uuid)
    requires |more| <= 1
    ensures Submits(outbox + more, id) == Submits(outbox, id) + if more != [] && IsSubmit(more[0], id) then 1 else 0
    ensures Cancels(outbox + more, id) == Cancels(outbox, id) + if more != [] && IsCancel(more[0], id) then 1 else 0
  {
    if more == [] {
      assert outbox + more == outbox;
    } else {
      assert more == [more[0]];
      OutboxSnoc(outbox, more[0], id);
    }
  }

  lemma CallsFitKept(m: Storage, db: Db, c: Change)
    requires OutboxInv(db) && AuditInv(db) && OutboxPart(db, c) && OrderPart(m, db, c)
    ensures var db', id := Commit(m, db, c), c.orderId;
      CallsFit(EventsOf(db.audit, id) + c.audit, db'.orders[id], Submits(db'.outbox, id), Cancels(db'.outbox, id))
  {
    hide Stored;
    hide IsPath;
    hide OrderOk;
    hide EventsOf;
    hide Submits;
    hide Cancels;
    var id := c.orderId;
    CountKindAppend(EventsOf(db.audit, id), c.audit, OrderRouted);
    CountKindAppend(EventsOf(db.audit, id), c.audit, CancelRequested);
    CallsAppend(db.outbox, c.outbox, id);
  }

  // ---------- positions ----------

  lemma IdentitiesFrame(m: Storage, db: Db, c: Change, k: PositionKey)
    requires FillsInv(m, db) && OrderPart(m, db, c)
    ensures Trades(Commit(m, db, c).orders, db.fills, k) == Trades(db.orders, db.fills, k)
  {
    hide Stored;
    hide OrderOk;
    hide TotalsAgree;
    var db' := Commit(m, db, c);
    forall i | 0 <= i < |db.fills|
      ensures db.fills[i].orderId in db.orders && SameIdentity(db.orders[db.fills[i].orderId], db'.orders[db.fills[i].orderId])
    {
      assert FillRowOk(m, db, db.fills[i]);
    }
    TradesFrame(db.orders, db'.orders, db.fills, k);
  }

  /** The new row is the old row's book after one more stored trade. */
  lemma ExecuteIsReplay(m: Storage, before: Option<Position>, mark: Option<real>, ts: seq<Trade>, t: Trade)
    requires IsReplay(m, BookOf(before), ts) && t.Valid()
    ensures IsReplay(m, BookOf(Some(StorePosition(m, Execute(before, mark, t)))), ts + [t])
  {
    hide Stored;
    hide AfterFill;
    assert (ts + [t])[..|ts + [t]| - 1] == ts;
  }

  lemma ReplayKept(m: Storage, db: Db, c: Change, k: PositionKey)
    requires PositionsInv(m, db) && FillsInv(m, db) && OrderPart(m, db, c) && FillPart(m, db, c) && PositionPart(m, db, c)
    ensures var db' := Commit(m, db, c); IsReplay(m, BookOf(Lookup(db'.positions, k)), Trades(db'.orders, db'.fills, k))
  {
    hide Stored;
    hide OrderOk;
    hide IsReplay;
    hide Execute;
    hide Within;
    hide MarkedAt;
    hide TotalsAgree;
    hide Trades;
    hide FillRowOk;
    hide ValueFilled;
    var orders := Commit(m, db, c).orders;
    IdentitiesFrame(m, db, c, k);
    if c.fill.Some? {
      var f := c.fill.value;
      TradesSnoc(orders, db.fills, f, k);
      if k == c.order.Key() {
        ExecuteIsReplay(m, Lookup(db.positions, k), MarkOf(db.quotes, c.order.symbol), Trades(db.orders, db.fills, k), AsTrade(c.order, f));
        assert TradesOn(orders, f, k);
      } else {
        assert !TradesOn(orders, f, k);
        assert Trades(orders, db.fills + [f], k) == Trades(db.orders, db.fills, k);
      }
    }
  }

  /** A freshly executed position is marked at the market price, or at the fill when there is none. */
  lemma ExecuteIsMarked(m: Storage, before: Option<Position>, mark: Option<real>, t: Trade)
    requires t.Valid() && Clean(m, t.price) && (mark.Some? ==> mark.value > 0.0 && Clean(m, mark.value))
    requires var net := AfterFill(BookOf(before), t).net; Stored(m, net) == net
    ensures var p := StorePosition(m, Execute(before, mark, t));
      MarkedAt(m, p) && (mark.Some? ==> p.mark == mark)
  {
    hide AfterFill;
    hide Round8;
    var x, p := Execute(before, mark, t), StorePosition(m, Execute(before, mark, t));
    RoundedMark(m, x.net, x.average, x.mark.value);
  }

  lemma RoundedMark(m: Storage, net: real, average: real, mark: real)
    ensures Within(m, Stored(m, Unrealized(net, average, Some(mark))) - Unrealized(net, Stored(m, average), Some(mark)), 1.0 + Abs(net))
  {
    hide Round8;
    var u := Unrealized(net, average, Some(mark));
    if net != 0.0 {
      var d := Stored(m, average) - average;
      WithinScaled(m, d, net, 1.0);
      assert Unrealized(net, Stored(m, average), Some(mark)) == u - net * d;
      WithinSum(m, Stored(m, u) - u, 1.0, net * d, Abs(net) * 1.0);
    } else {
      WithinWeaken(m, Stored(m, u) - u, 1.0, 1.0 + Abs(net));
    }
  }

  lemma MarksKept(m: Storage, db: Db, c: Change, k: PositionKey)
    requires PositionsInv(m, db) && FillsInv(m, db) && OrderPart(m, db, c) && FillPart(m, db, c) && PositionPart(m, db, c)
    requires c.fill.Some? ==> Clean(m, c.fill.value.quantity) && Clean(m, c.fill.value.price)
    requires k in Commit(m, db, c).positions
    ensures var db' := Commit(m, db, c);
      && k.accountId in db'.accounts
      && MarkedAt(m, db'.positions[k])
      && (k.symbol in db'.quotes ==> db'.positions[k].mark == Some(db'.quotes[k.symbol].price))
  {
    hide Stored;
    hide OrderOk;
    hide IsReplay;
    hide AfterFill;
    hide Within;
    hide MarkedAt;
    if c.fill.Some? && k == c.order.Key() {
      var before, t := Lookup(db.positions, k), AsTrade(c.order, c.fill.value);
      NetStaysClean(m, db, k, t);
      ExecuteIsMarked(m, before, MarkOf(db.quotes, c.order.symbol), t);
    }
  }

  lemma {:induction false} TradesClean(m: Storage, orders: map<Uuid, Order>, fills: seq<Fill>, k: PositionKey)
    requires forall i :: 0 <= i < |fills| ==> Clean(m, fills[i].quantity)
    ensures CleanQuantities(m, Trades(orders, fills, k))
  {
    hide Stored;
    if fills != [] {
      TradesClean(m, orders, fills[..|fills| - 1], k);
    }
  }

  /** Net quantities are sums of clean quantities. */
  lemma NetIsClean(m: Storage, db: Db, k: PositionKey)
    requires PositionsInv(m, db) && FillsInv(m, db)
    ensures Clean(m, BookOf(Lookup(db.positions, k)).net)
  {
    hide Stored;
    hide AfterFill;
    hide TotalsAgree;
    hide MarkedAt;
    var ts := Trades(db.orders, db.fills, k);
    forall i | 0 <= i < |db.fills| ensures Clean(m, db.fills[i].quantity) {
      assert FillRowOk(m, db, db.fills[i]);
    }
    TradesClean(m, db.orders, db.fills, k);
    ReplayDrift(m, ts);
  }

  lemma NetStaysClean(m: Storage, db: Db, k: PositionKey, t: Trade)
    requires PositionsInv(m, db) && FillsInv(m, db) && t.Valid() && Clean(m, t.quantity)
    ensures Clean(m, AfterFill(BookOf(Lookup(db.positions, k)), t).net)
  {
    hide Stored;
    hide AfterFill;
    hide PositionsInv;
    hide FillsInv;
    NetIsClean(m, db, k);
    var b := BookOf(Lookup(db.positions, k));
    FillConserves(b, t);
    CleanSigned(m, t);
    CleanSum(m, b.net, t.Signed());
  }

  lemma PositionsKept(m: Storage, db: Db, c: Change)
    requires PositionsInv(m, db) && FillsInv(m, db) && OrderPart(m, db, c) && FillPart(m, db, c) && PositionPart(m, db, c)
    requires c.fill.Some? ==> Clean(m, c.fill.value.quantity) && Clean(m, c.fill.value.price)
    ensures PositionsInv(m, Commit(m, db, c))
  {
    hide Stored;
    hide OrderPart;
    hide FillPart;
    hide PositionPart;
    hide IsReplay;
    hide MarkedAt;
    var db' := Commit(m, db, c);
    forall k ensures IsReplay(m, BookOf(Lookup(db'.positions, k)), Trades(db'.orders, db'.fills, k)) {
      ReplayKept(m, db, c, k);
    }
    forall k | k in db'.positions
      ensures k.accountId in db'.accounts && MarkedAt(m, db'.positions[k])
      ensures k.symbol in db'.quotes ==> db'.positions[k].mark == Some(db'.quotes[k.symbol].price)
    {
      MarksKept(m, db, c, k);
    }
  }

  /** A good change keeps the whole invariant. */
  lemma GoodChangeKeepsInv(m: Storage, db: Db, c: Change)
    requires Inv(m, db) && GoodChange(m, db, c)
    requires c.fill.Some? ==> Clean(m, c.fill.value.quantity) && Clean(m, c.fill.value.price)
    ensures Inv(m, Commit(m, db, c))
  {
    hide OrdersInv;
    hide AuditInv;
    hide FillsInv;
    hide LedgerInv;
    hide PositionsInv;
    hide OutboxInv;
    hide ProcessedInv;
    hide OrderPart;
    hide AuditPart;
    hide ProcessedPart;
    hide LedgerPart;
    hide FillPart;
    hide PositionPart;
    hide OutboxPart;
    hide Commit;
    OrdersKept(m, db, c);
    AuditKept(m, db, c);
    FillsKept(m, db, c);
    LedgerKept(m, db, c);
    PositionsKept(m, db, c);
    OutboxKept(m, db, c);
    ProcessedKept(m, db, c);
  }
}
