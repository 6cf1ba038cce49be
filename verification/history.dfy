/** What the append-only tables say about one order or one position. */
module History {
  import opened Types
  import opened Numeric
  import opened Tables
  import opened OrderRules
  import opened PositionRules

  // ---------- the audit log ----------

  function EventsOf(audit: seq<AuditEvent>, id: Uuid): seq<AuditEvent> {
    if audit == [] then []
    else
      var e := audit[|audit| - 1];
      EventsOf(audit[..|audit| - 1], id) + if e.orderId == id then [e] else []
  }

  /** One audit entry may follow another: they meet, and a change of status is allowed. */
  predicate Follows(e: AuditEvent, f: AuditEvent) {
    f.before == Some(e.after) && (f.after == e.after || TransitionAllowed(e.after, f.after))
  }

  /** The entries replay from creation to the given status. */
  predicate IsPath(es: seq<AuditEvent>, s: Status) {
    && |es| > 0
    && es[0].before == None && es[0].after == New
    && (forall i :: 0 < i < |es| ==> Follows(es[i - 1], es[i]))
    && es[|es| - 1].after == s
  }

  /** The entries a transaction adds for one order, starting after status s (None for a new order). */
  predicate IsTail(es: seq<AuditEvent>, id: Uuid, s: Option<Status>, t: Status) {
    && |es| > 0
    && (forall i :: 0 <= i < |es| ==> es[i].orderId == id)
    && es[0].before == s
    && (s.None? ==> es[0].after == New)
    && (s.Some? ==> es[0].after == s.value || TransitionAllowed(s.value, es[0].after))
    && (forall i :: 0 < i < |es| ==> Follows(es[i - 1], es[i]))
    && es[|es| - 1].after == t
  }

  lemma {:induction false} EventsOfAppend(audit: seq<AuditEvent>, es: seq<AuditEvent>, id: Uuid)
    ensures EventsOf(audit + es, id) == EventsOf(audit, id) + EventsOf(es, id)
  {
    if es == [] {
      assert audit + es == audit;
    } else {
      assert (audit + es)[..|audit + es| - 1] == audit + es[..|es| - 1];
      EventsOfAppend(audit, es[..|es| - 1], id);
    }
  }

  lemma {:induction false} EventsOfOwn(es: seq<AuditEvent>, id: Uuid)
    requires forall i :: 0 <= i < |es| ==> es[i].orderId == id
    ensures EventsOf(es, id) == es
    ensures forall other :: other != id ==> EventsOf(es, other) == []
  {
    if es != [] {
      EventsOfOwn(es[..|es| - 1], id);
    }
  }

  /** Appending a transaction's entries extends the order's path and leaves every other order's alone. */
  lemma PathExtends(audit: seq<AuditEvent>, es: seq<AuditEvent>, id: Uuid, s: Option<Status>, t: Status)
    requires IsTail(es, id, s, t)
    requires if s.None? then EventsOf(audit, id) == [] else IsPath(EventsOf(audit, id), s.value)
    ensures IsPath(EventsOf(audit + es, id), t)
    ensures forall other :: other != id ==> EventsOf(audit + es, other) == EventsOf(audit, other)
  {
    EventsOfOwn(es, id);
    forall other ensures EventsOf(audit + es, other) == EventsOf(audit, other) + EventsOf(es, other) {
      EventsOfAppend(audit, es, other);
    }
    var prior, all := EventsOf(audit, id), EventsOf(audit + es, id);
    forall i | 0 < i < |all| ensures Follows(all[i - 1], all[i]) {
      if i > |prior| {
        assert all[i - 1] == es[i - 1 - |prior|] && all[i] == es[i - |prior|];
      }
    }
  }

  function CountKind(es: seq<AuditEvent>, kind: AuditKind): nat {
    if es == [] then 0
    else CountKind(es[..|es| - 1], kind) + if es[|es| - 1].kind == kind then 1 else 0
  }

  lemma {:induction false} CountKindAppend(xs: seq<AuditEvent>, ys: seq<AuditEvent>, kind: AuditKind)
    ensures CountKind(xs + ys, kind) == CountKind(xs, kind) + CountKind(ys, kind)
  {
    if ys == [] {
      assert xs + ys == xs;
    } else {
      assert (xs + ys)[..|xs + ys| - 1] == xs + ys[..|ys| - 1];
      CountKindAppend(xs, ys[..|ys| - 1], kind);
    }
  }

  // ---------- the fills table ----------

  function FillsOf(fills: seq<Fill>, id: Uuid): seq<Fill> {
    if fills == [] then []
    else
      var f := fills[|fills| - 1];
      FillsOf(fills[..|fills| - 1], id) + if f.orderId == id then [f] else []
  }

  function QuantityOf(fs: seq<Fill>): real {
    if fs == [] then 0.0 else QuantityOf(fs[..|fs| - 1]) + fs[|fs| - 1].quantity
  }

  function ValueOf(fs: seq<Fill>): real {
    if fs == [] then 0.0 else ValueOf(fs[..|fs| - 1]) + Notional(fs[|fs| - 1].quantity, fs[|fs| - 1].price)
  }

  lemma FillsOfSnoc(fills: seq<Fill>, f: Fill, id: Uuid)
    ensures FillsOf(fills + [f], id) == FillsOf(fills, id) + if f.orderId == id then [f] else []
  {
    assert (fills + [f])[..|fills + [f]| - 1] == fills;
  }

  lemma TotalsSnoc(fs: seq<Fill>, f: Fill)
    ensures QuantityOf(fs + [f]) == QuantityOf(fs) + f.quantity
    ensures ValueOf(fs + [f]) == ValueOf(fs) + Notional(f.quantity, f.price)
  {
    assert (fs + [f])[..|fs + [f]| - 1] == fs;
  }

  lemma {:induction false} FillsOfMember(fills: seq<Fill>, id: Uuid)
    ensures forall i :: 0 <= i < |FillsOf(fills, id)| ==> FillsOf(fills, id)[i] in fills && FillsOf(fills, id)[i].orderId == id
  {
    if fills != [] {
      FillsOfMember(fills[..|fills| - 1], id);
    }
  }

  // ---------- fills as trades of a position ----------

  function AsTrade(o: Order, f: Fill): Trade { Trade(o.side, f.quantity, f.price) }

  predicate TradesOn(orders: map<Uuid, Order>, f: Fill, key: PositionKey) {
    f.orderId in orders && orders[f.orderId].Key() == key
  }

  /** The trades that made a position, oldest first. */
  function Trades(orders: map<Uuid, Order>, fills: seq<Fill>, key: PositionKey): seq<Trade> {
    if fills == [] then []
    else
      var f := fills[|fills| - 1];
      Trades(orders, fills[..|fills| - 1], key) + if TradesOn(orders, f, key) then [AsTrade(orders[f.orderId], f)] else []
  }

  /** The parts of an order no transaction ever changes. */
  predicate SameIdentity(a: Order, b: Order) {
    && a.accountId == b.accountId
    && a.clientOrderId == b.clientOrderId
    && a.idempotencyKey == b.idempotencyKey
    && a.symbol == b.symbol
    && a.side == b.side
    && a.orderType == b.orderType
    && a.timeInForce == b.timeInForce
    && a.quantity == b.quantity
    && a.price == b.price
    && a.expiresAt == b.expiresAt
  }

  /** Trades depend only on the identities of the orders that have fills. */
  lemma {:induction false} TradesFrame(orders: map<Uuid, Order>, orders': map<Uuid, Order>, fills: seq<Fill>, key: PositionKey)
    requires forall i :: 0 <= i < |fills| ==> fills[i].orderId in orders && fills[i].orderId in orders'
    requires forall i :: 0 <= i < |fills| ==> SameIdentity(orders[fills[i].orderId], orders'[fills[i].orderId])
    ensures Trades(orders, fills, key) == Trades(orders', fills, key)
  {
    if fills != [] {
      var f := fills[|fills| - 1];
      assert SameIdentity(orders[f.orderId], orders'[f.orderId]);
      TradesFrame(orders, orders', fills[..|fills| - 1], key);
    }
  }

  lemma TradesSnoc(orders: map<Uuid, Order>, fills: seq<Fill>, f: Fill, key: PositionKey)
    ensures Trades(orders, fills + [f], key) ==
      Trades(orders, fills, key) + if TradesOn(orders, f, key) then [AsTrade(orders[f.orderId], f)] else []
  {
    assert (fills + [f])[..|fills + [f]| - 1] == fills;
  }

  lemma {:induction false} TradesValid(orders: map<Uuid, Order>, fills: seq<Fill>, key: PositionKey)
    requires forall i :: 0 <= i < |fills| ==> FillChecks(fills[i])
    ensures AllValid(Trades(orders, fills, key))
  {
    if fills != [] {
      TradesValid(orders, fills[..|fills| - 1], key);
    }
  }

  // ---------- calls to the broker ----------

  predicate IsSubmit(x: Outbound, id: Uuid) { x.Submit? && x.order.orderId == id }

  predicate IsCancel(x: Outbound, id: Uuid) { x.CancelAtBroker? && x.orderId == id }

  function Submits(outbox: seq<Outbound>, id: Uuid): nat {
    if outbox == [] then 0
    else Submits(outbox[..|outbox| - 1], id) + if IsSubmit(outbox[|outbox| - 1], id) then 1 else 0
  }

  function Cancels(outbox: seq<Outbound>, id: Uuid): nat {
    if outbox == [] then 0
    else Cancels(outbox[..|outbox| - 1], id) + if IsCancel(outbox[|outbox| - 1], id) then 1 else 0
  }

  lemma OutboxSnoc(outbox: seq<Outbound>, x: Outbound, id: Uuid)
    ensures Submits(outbox + [x], id) == Submits(outbox, id) + if IsSubmit(x, id) then 1 else 0
    ensures Cancels(outbox + [x], id) == Cancels(outbox, id) + if IsCancel(x, id) then 1 else 0
  {
    assert (outbox + [x])[..|outbox + [x]| - 1] == outbox;
  }
}
