/** Position arithmetic: how one fill changes a position, and what any list of fills adds up to. */
module PositionRules {
  import opened Types
  import opened Numeric

  /** Net quantity (short positions are negative), average entry price and realized profit. */
  datatype Book = Book(net: real, average: real, realized: real)

  const FLAT := Book(0.0, 0.0, 0.0)

  datatype Trade = Trade(side: Side, quantity: real, price: real) {
    predicate Valid() { quantity > 0.0 && price > 0.0 }

    function Signed(): real { if side.Buy? then quantity else -quantity }

    /** The cash the trade moves into the position; negative for sales. */
    function Flow(): real { Signed() * price }
  }

  function AfterFill(b: Book, t: Trade): Book
    requires t.quantity > 0.0
  {
    var signed := t.Signed();
    if b.net == 0.0 || b.net * signed > 0.0 then
      SameDirectionGrows(b.net, signed);
      var cost := Abs(b.net) * b.average + Abs(signed) * t.price;
      Book(b.net + signed, cost / Abs(b.net + signed), b.realized)
    else
      var closing := if Abs(b.net) <= Abs(signed) then Abs(b.net) else Abs(signed);
      var gain := if b.net > 0.0 then (t.price - b.average) * closing else (b.average - t.price) * closing;
      var net := b.net + signed;
      var average :=
        if net == 0.0 then 0.0
        else if b.net * net > 0.0 then b.average
        else t.price;
      Book(net, average, b.realized + gain)
  }

  function Unrealized(net: real, average: real, mark: Option<real>): real {
    if mark.None? || net == 0.0 then 0.0 else (mark.value - average) * net
  }

  lemma SignOfProduct(x: real, y: real)
    ensures (x * y > 0.0) == ((x > 0.0 && y > 0.0) || (x < 0.0 && y < 0.0))
    ensures (x * y < 0.0) == ((x > 0.0 && y < 0.0) || (x < 0.0 && y > 0.0))
  {
    if x >= 0.0 {
      if y >= 0.0 {
        assert x * y >= 0.0;
      } else {
        assert x * (-y) >= 0.0;
      }
    } else {
      if y >= 0.0 {
        assert (-x) * y >= 0.0;
      } else {
        assert (-x) * (-y) >= 0.0;
      }
    }
  }

  lemma SameDirectionGrows(x: real, y: real)
    requires y != 0.0
    requires x == 0.0 || x * y > 0.0
    ensures x + y != 0.0 && Abs(x + y) == Abs(x) + Abs(y)
    ensures (x + y > 0.0) == (y > 0.0) && (x != 0.0 ==> (x > 0.0) == (y > 0.0))
  {
    SignOfProduct(x, y);
  }

  /** What the position has cost so far, net of what it has earned: net * average - realized. */
  function Invested(b: Book): real { b.net * b.average - b.realized }

  /** Through opening, increasing, reducing, closing and crossing, a fill adds its own cash flow. */
  lemma FillConserves(b: Book, t: Trade)
    requires t.quantity > 0.0
    ensures AfterFill(b, t).net == b.net + t.Signed()
    ensures Invested(AfterFill(b, t)) == Invested(b) + t.Flow()
  {
    var s, r := t.Signed(), AfterFill(b, t);
    if b.net == 0.0 || b.net * s > 0.0 {
      SameDirectionGrows(b.net, s);
      var cost := Abs(b.net) * b.average + Abs(s) * t.price;
      assert r.average * Abs(r.net) == cost;
      if s > 0.0 {
        assert r.net * r.average == b.net * b.average + s * t.price;
      } else {
        assert -r.net * r.average == -(b.net * b.average) - s * t.price;
      }
    } else {
      SignOfProduct(b.net, s);
      if r.net == 0.0 {
        assert s == -b.net;
      } else if b.net * r.net > 0.0 {
        SignOfProduct(b.net, r.net);
        ReduceConserves(b.net, b.average, s, t.price);
      } else {
        SignOfProduct(b.net, r.net);
        CrossConserves(b.net, b.average, s, t.price);
      }
    }
  }

  lemma ReduceConserves(n: real, a: real, s: real, p: real)
    ensures (n + s) * a - (p - a) * (-s) == n * a + s * p
    ensures (n + s) * a - (a - p) * s == n * a + s * p
  {
  }

  lemma CrossConserves(n: real, a: real, s: real, p: real)
    ensures (n + s) * p - (p - a) * n == n * a + s * p
    ensures (n + s) * p - (a - p) * (-n) == n * a + s * p
  {
  }

  /** A flat position has average zero; an open one has a positive average. */
  predicate Coherent(b: Book) { if b.net == 0.0 then b.average == 0.0 else b.average > 0.0 }

  /** A valid fill leaves the average zero exactly when it leaves the position flat. */
  lemma FillKeepsCoherent(b: Book, t: Trade)
    requires Coherent(b) && t.Valid()
    ensures Coherent(AfterFill(b, t))
  {
    var s := t.Signed();
    if b.net == 0.0 || b.net * s > 0.0 {
      SameDirectionGrows(b.net, s);
      var cost := Abs(b.net) * b.average + Abs(s) * t.price;
      SignOfProduct(Abs(s), t.price);
      SignOfProduct(Abs(b.net), b.average);
      assert cost > 0.0;
      QuotientPositive(cost, Abs(b.net + s));
    }
  }

  lemma QuotientPositive(x: real, y: real)
    requires x > 0.0 && y > 0.0
    ensures x / y > 0.0
  {
  }

  lemma QuotientNonNegative(x: real, y: real)
    requires x >= 0.0 && y > 0.0
    ensures x / y >= 0.0
  {
  }

  /** Total profit of a position at a mark: what the account summary reports for it. */
  function TotalPnl(b: Book, mark: real): real { b.realized + Unrealized(b.net, b.average, Some(mark)) }

  lemma TotalPnlFromFlow(b: Book, mark: real)
    ensures TotalPnl(b, mark) == mark * b.net - Invested(b)
  {
    assert (mark - b.average) * b.net == mark * b.net - b.net * b.average;
  }

  function NetOf(ts: seq<Trade>): real {
    if ts == [] then 0.0 else NetOf(ts[..|ts| - 1]) + ts[|ts| - 1].Signed()
  }

  function FlowOf(ts: seq<Trade>): real {
    if ts == [] then 0.0 else FlowOf(ts[..|ts| - 1]) + ts[|ts| - 1].Flow()
  }

  predicate AllValid(ts: seq<Trade>) { forall i :: 0 <= i < |ts| ==> ts[i].Valid() }

  /** Storing a position rounds each of its three columns. */
  function StoredBook(m: Storage, b: Book): Book {
    Book(Stored(m, b.net), Stored(m, b.average), Stored(m, b.realized))
  }

  /** The position row after a list of fills, written back after every fill. */
  function Replay(m: Storage, ts: seq<Trade>): Book
    requires AllValid(ts)
  {
    if ts == [] then FLAT
    else StoredBook(m, AfterFill(Replay(m, ts[..|ts| - 1]), ts[|ts| - 1]))
  }

  /** The weight of the accumulated storage error: one for realized, |net| for the average, per fill. */
  function Exposure(m: Storage, ts: seq<Trade>): (e: real)
    requires AllValid(ts)
    ensures e >= 0.0
  {
    if ts == [] then 0.0 else Exposure(m, ts[..|ts| - 1]) + 1.0 + Abs(Replay(m, ts).net)
  }

  predicate CleanQuantities(m: Storage, ts: seq<Trade>) {
    forall i :: 0 <= i < |ts| ==> Clean(m, ts[i].quantity)
  }

  lemma CleanSigned(m: Storage, t: Trade)
    requires Clean(m, t.quantity)
    ensures Clean(m, t.Signed())
  {
    CleanZero(m);
    CleanSum(m, 0.0, t.quantity);
  }

  lemma StoringMovesInvested(m: Storage, e: Book)
    requires Clean(m, e.net)
    ensures var r := StoredBook(m, e); Within(m, Invested(r) - Invested(e), 1.0 + Abs(r.net))
  {
    hide Round8;
    hide Within;
    var r := StoredBook(m, e);
    var da, dr := r.average - e.average, r.realized - e.realized;
    WithinScaled(m, da, r.net, 1.0);
    assert r.net * r.average == r.net * e.average + r.net * da;
    WithinSum(m, r.net * da, Abs(r.net) * 1.0, dr, 1.0);
    assert Invested(r) - Invested(e) == r.net * da - dr;
    assert Abs(r.net) * 1.0 + 1.0 == 1.0 + Abs(r.net);
  }

  /** One stored fill moves net exactly and Invested by its flow, up to 1 + |net| half-units. */
  lemma StoredFillDrift(m: Storage, b: Book, t: Trade)
    requires t.quantity > 0.0 && Clean(m, t.quantity) && Clean(m, b.net)
    ensures var r := StoredBook(m, AfterFill(b, t));
      && Clean(m, r.net)
      && r.net == b.net + t.Signed()
      && Within(m, Invested(r) - Invested(b) - t.Flow(), 1.0 + Abs(r.net))
  {
    hide AfterFill;
    hide Invested;
    FillConserves(b, t);
    CleanSigned(m, t);
    CleanSum(m, b.net, t.Signed());
    StoringMovesInvested(m, AfterFill(b, t));
  }

  /**
   * After any fill list the stored net quantity is exact, and realized profit agrees with
   * net * average - flow up to the exposure in half-units of storage: exactly, when storage is exact.
   */
  lemma {:induction false} ReplayDrift(m: Storage, ts: seq<Trade>)
    requires AllValid(ts) && CleanQuantities(m, ts)
    ensures Clean(m, Replay(m, ts).net)
    ensures Replay(m, ts).net == NetOf(ts)
    ensures Within(m, Invested(Replay(m, ts)) - FlowOf(ts), Exposure(m, ts))
  {
    if ts == [] {
      CleanZero(m);
    } else {
      var rest, t := ts[..|ts| - 1], ts[|ts| - 1];
      ReplayDrift(m, rest);
      StoredFillDrift(m, Replay(m, rest), t);
      WithinSum(m, Invested(Replay(m, rest)) - FlowOf(rest), Exposure(m, rest),
                Invested(Replay(m, ts)) - Invested(Replay(m, rest)) - t.Flow(), 1.0 + Abs(Replay(m, ts).net));
    }
  }

  /** Exact storage: realized == net * average - flow, and total profit at any mark is mark * net - flow. */
  lemma ReplayExact(ts: seq<Trade>, mark: real)
    requires AllValid(ts)
    ensures var b := Replay(Exact, ts);
      && b.net == NetOf(ts)
      && b.realized == b.net * b.average - FlowOf(ts)
      && TotalPnl(b, mark) == mark * NetOf(ts) - FlowOf(ts)
  {
    hide AfterFill;
    hide Replay;
    ReplayDrift(Exact, ts);
    TotalPnlFromFlow(Replay(Exact, ts), mark);
  }

  lemma {:induction false} NetAndFlowAppend(xs: seq<Trade>, ys: seq<Trade>)
    ensures NetOf(xs + ys) == NetOf(xs) + NetOf(ys)
    ensures FlowOf(xs + ys) == FlowOf(xs) + FlowOf(ys)
  {
    if ys == [] {
      assert xs + ys == xs;
    } else {
      assert (xs + ys)[..|xs + ys| - 1] == xs + ys[..|ys| - 1];
      NetAndFlowAppend(xs, ys[..|ys| - 1]);
    }
  }

  /** Net and flow depend only on which trades happened, not on their order. */
  lemma {:induction false} NetAndFlowPermute(xs: seq<Trade>, ys: seq<Trade>)
    requires multiset(xs) == multiset(ys)
    ensures NetOf(xs) == NetOf(ys) && FlowOf(xs) == FlowOf(ys)
    decreases |xs|
  {
    if xs == [] {
      assert |multiset(ys)| == 0;
    } else {
      var t, rest := xs[|xs| - 1], xs[..|xs| - 1];
      assert xs == rest + [t];
      assert t in multiset(ys);
      var i :| 0 <= i < |ys| && ys[i] == t;
      assert ys == ys[..i] + [t] + ys[i + 1..];
      assert multiset(rest) == multiset(xs) - multiset{t};
      assert multiset(ys[..i] + ys[i + 1..]) == multiset(ys) - multiset{t};
      NetAndFlowPermute(rest, ys[..i] + ys[i + 1..]);
      NetAndFlowAppend(ys[..i], [t]);
      NetAndFlowAppend(ys[..i] + [t], ys[i + 1..]);
      NetAndFlowAppend(ys[..i], ys[i + 1..]);
    }
  }

  /** Total profit at any mark does not depend on the order in which fills arrive. */
  lemma PnlIndependentOfOrder(xs: seq<Trade>, ys: seq<Trade>, mark: real)
    requires AllValid(xs) && AllValid(ys) && multiset(xs) == multiset(ys)
    ensures Replay(Exact, xs).net == Replay(Exact, ys).net
    ensures TotalPnl(Replay(Exact, xs), mark) == TotalPnl(Replay(Exact, ys), mark)
  {
    hide Replay;
    hide NetOf;
    hide FlowOf;
    hide TotalPnl;
    NetAndFlowPermute(xs, ys);
    ReplayExact(xs, mark);
    ReplayExact(ys, mark);
  }

  /**
   * Filling q1 + q2 at one price gives the same position as filling q1 and then q2, from any
   * starting position, including splits that land on flat or straddle a crossing.
   */
  lemma SplitInvariant(b: Book, side: Side, q1: real, q2: real, p: real)
    requires q1 > 0.0 && q2 > 0.0
    ensures AfterFill(b, Trade(side, q1 + q2, p)) == AfterFill(AfterFill(b, Trade(side, q1, p)), Trade(side, q2, p))
  {
    hide AfterFill;
    var signed := Trade(side, q1, p).Signed();
    SignOfProduct(b.net, signed);
    if b.net == 0.0 || b.net * signed > 0.0 {
      SplitGrowing(b, side, q1, q2, p);
    } else {
      SplitAgainst(b, side, q1, q2, p);
    }
  }

  lemma SplitGrowing(b: Book, side: Side, q1: real, q2: real, p: real)
    requires q1 > 0.0 && q2 > 0.0
    requires b.net == 0.0 || b.net * Trade(side, q1, p).Signed() > 0.0
    ensures AfterFill(b, Trade(side, q1 + q2, p)) == AfterFill(AfterFill(b, Trade(side, q1, p)), Trade(side, q2, p))
  {
    var t1, t2, t := Trade(side, q1, p), Trade(side, q2, p), Trade(side, q1 + q2, p);
    var s1, s2 := t1.Signed(), t2.Signed();
    SameDirectionGrows(b.net, s1);
    var b1 := AfterFill(b, t1);
    SignOfProduct(b1.net, s2);
    SignOfProduct(b.net, t.Signed());
    SameDirectionGrows(b1.net, s2);
    SameDirectionGrows(b.net, t.Signed());
    assert b1.average * Abs(b1.net) == Abs(b.net) * b.average + q1 * p;
    assert (q1 + q2) * p == q1 * p + q2 * p;
  }

  /** Opening or growing a position books no profit, and the average absorbs the fill by quantity. */
  lemma GrowthCases(b: Book, t: Trade)
    requires t.quantity > 0.0 && (b.net == 0.0 || (b.net > 0.0) == t.side.Buy?)
    ensures var r := AfterFill(b, t);
      && r.net == b.net + t.Signed() && Abs(r.net) == Abs(b.net) + t.quantity
      && r.realized == b.realized
      && r.average * (Abs(b.net) + t.quantity) == Abs(b.net) * b.average + t.quantity * t.price
      && (b.net == 0.0 ==> r.average == t.price)
      && (b.average <= t.price ==> r.average <= t.price && (b.net != 0.0 ==> b.average <= r.average))
      && (t.price <= b.average ==> t.price <= r.average && (b.net != 0.0 ==> r.average <= b.average))
  {
    var s, n, q := t.Signed(), Abs(b.net), t.quantity;
    SignOfProduct(b.net, s);
    SameDirectionGrows(b.net, s);
    var r := AfterFill(b, t);
    assert r.average * Abs(r.net) == n * b.average + q * t.price;
    assert Abs(r.net) == n + q;
    hide AfterFill;
    WeightedMean(n, q, b.average, t.price, r.average);
  }

  /** A weighted mean lies between its two values. */
  lemma WeightedMean(n: real, q: real, x: real, y: real, a: real)
    requires n >= 0.0 && q > 0.0 && a * (n + q) == n * x + q * y
    ensures n == 0.0 ==> a == y
    ensures (x <= y ==> a <= y) && (y <= x ==> y <= a)
    ensures n > 0.0 ==> (x <= y ==> x <= a) && (y <= x ==> a <= x)
  {
    MeanGaps(n, q, x, y, a);
    NotionalSign(n, y - x);
    NotionalSign(q, y - x);
    NotionalSign(y - a, n + q);
    NotionalSign(a - x, n + q);
    hide Notional;
  }

  lemma MeanGaps(n: real, q: real, x: real, y: real, a: real)
    requires a * (n + q) == n * x + q * y
    ensures Notional(y - a, n + q) == Notional(n, y - x)
    ensures Notional(a - x, n + q) == Notional(q, y - x)
  {
    assert (y - a) * (n + q) == y * n + y * q - a * (n + q);
    assert (a - x) * (n + q) == a * (n + q) - x * n - x * q;
  }

  lemma NotionalSign(x: real, y: real)
    ensures Notional(x, y) > 0.0 <==> (x > 0.0 && y > 0.0) || (x < 0.0 && y < 0.0)
    ensures Notional(x, y) < 0.0 <==> (x > 0.0 && y < 0.0) || (x < 0.0 && y > 0.0)
  {
    SignOfProduct(x, y);
  }

  predicate OneSided(ts: seq<Trade>, side: Side) { forall i :: 0 <= i < |ts| ==> ts[i].side == side }

  lemma GrowthIsStored(m: Storage, b: Book, t: Trade)
    requires t.Valid() && Clean(m, t.quantity) && Clean(m, b.net) && b.realized == 0.0
    requires if t.side.Buy? then b.net >= 0.0 else b.net <= 0.0
    ensures var r := StoredBook(m, AfterFill(b, t));
      r.realized == 0.0 && Clean(m, r.net) && if t.side.Buy? then r.net > 0.0 else r.net < 0.0
  {
    GrowthCases(b, t);
    hide AfterFill;
    StoredFillDrift(m, b, t);
    CleanZero(m);
    hide Stored;
    hide Invested;
    hide Within;
  }

  lemma {:induction false} OneSidedBook(m: Storage, ts: seq<Trade>, side: Side)
    requires AllValid(ts) && CleanQuantities(m, ts) && OneSided(ts, side)
    ensures var r := Replay(m, ts);
      && r.realized == 0.0 && Clean(m, r.net)
      && if ts == [] then r.net == 0.0 else if side.Buy? then r.net > 0.0 else r.net < 0.0
  {
    hide AfterFill;
    hide Stored;
    CleanZero(m);
    if ts != [] {
      var rest, t := ts[..|ts| - 1], ts[|ts| - 1];
      OneSidedBook(m, rest, side);
      GrowthIsStored(m, Replay(m, rest), t);
      hide StoredBook;
    }
  }

  lemma NoProfitTaken(b: Book)
    requires b.realized == 0.0
    ensures Invested(b) == Notional(b.net, b.average)
  {
  }

  /**
   * A position that was only ever bought, or only ever sold, has made no profit, in either form of storage, and
   * its average price times its net quantity is what was paid for it, up to the exposure in half-units.
   */
  lemma OneSidedReplay(m: Storage, ts: seq<Trade>, side: Side)
    requires AllValid(ts) && CleanQuantities(m, ts) && OneSided(ts, side)
    ensures var r := Replay(m, ts);
      && r.realized == 0.0 && r.net == NetOf(ts)
      && (if ts == [] then r.net == 0.0 else if side.Buy? then r.net > 0.0 else r.net < 0.0)
      && Within(m, Notional(r.net, r.average) - FlowOf(ts), Exposure(m, ts))
  {
    hide Replay;
    hide Exposure;
    hide Within;
    hide NetOf;
    hide FlowOf;
    hide AllValid;
    hide CleanQuantities;
    ReplayDrift(m, ts);
    OneSidedBook(m, ts, side);
    hide OneSided;
    NoProfitTaken(Replay(m, ts));
  }

  /** In exact storage the average price of such a position is the weighted mean of its prices, and lies among them. */
  lemma {:induction false} OneSidedAverage(ts: seq<Trade>, side: Side, lo: real, hi: real)
    requires AllValid(ts) && OneSided(ts, side) && ts != [] && forall i :: 0 <= i < |ts| ==> lo <= ts[i].price <= hi
    ensures var r := Replay(Exact, ts); Notional(r.net, r.average) == FlowOf(ts) && lo <= r.average <= hi
  {
    var rest, t := ts[..|ts| - 1], ts[|ts| - 1];
    ExactQuantities(ts);
    ExactQuantities(rest);
    OneSidedReplay(Exact, ts, side);
    OneSidedReplay(Exact, rest, side);
    ExactReplaySnoc(ts);
    GrowthCases(Replay(Exact, rest), t);
    hide Replay;
    hide AfterFill;
    hide CleanQuantities;
    hide Exposure;
    hide FlowOf;
    hide NetOf;
    hide Notional;
    if rest != [] {
      OneSidedAverage(rest, side, lo, hi);
    }
  }

  lemma ExactQuantities(ts: seq<Trade>)
    ensures CleanQuantities(Exact, ts)
  {
  }

  lemma ExactReplaySnoc(ts: seq<Trade>)
    requires AllValid(ts) && ts != []
    ensures Replay(Exact, ts) == AfterFill(Replay(Exact, ts[..|ts| - 1]), ts[|ts| - 1])
  {
    hide AfterFill;
  }

  /** The book after a fill against an open position, as a function of the new net quantity. */
  lemma AgainstCases(b: Book, t: Trade)
    requires t.quantity > 0.0 && b.net != 0.0 && (b.net > 0.0) == t.side.Sell?
    ensures var r := AfterFill(b, t);
      && r.net == b.net + t.Signed()
      && (t.quantity < Abs(b.net) ==> r.average == b.average && r.realized == b.realized + Gain(b, t.price) * t.quantity)
      && (t.quantity == Abs(b.net) ==> r.average == 0.0 && r.realized == b.realized + Gain(b, t.price) * Abs(b.net))
      && (t.quantity > Abs(b.net) ==> r.average == t.price && r.realized == b.realized + Gain(b, t.price) * Abs(b.net))
  {
    SignOfProduct(b.net, t.Signed());
    var net := b.net + t.Signed();
    if t.quantity < Abs(b.net) {
      SignOfProduct(b.net, net);
    } else if t.quantity > Abs(b.net) {
      SignOfProduct(b.net, net);
    }
  }

  /** Profit per unit closed at price p. */
  function Gain(b: Book, p: real): real { if b.net > 0.0 then p - b.average else b.average - p }

  lemma SplitAgainst(b: Book, side: Side, q1: real, q2: real, p: real)
    requires q1 > 0.0 && q2 > 0.0
    requires b.net != 0.0 && (b.net > 0.0) == side.Sell?
    ensures AfterFill(b, Trade(side, q1 + q2, p)) == AfterFill(AfterFill(b, Trade(side, q1, p)), Trade(side, q2, p))
  {
    hide AfterFill;
    var t1, t2, t := Trade(side, q1, p), Trade(side, q2, p), Trade(side, q1 + q2, p);
    var b1 := AfterFill(b, t1);
    AgainstCases(b, t1);
    AgainstCases(b, t);
    if q1 < Abs(b.net) {
      AgainstCases(b1, t2);
      Distribute(Gain(b, p), q1, q2);
      Distribute(Gain(b, p), q1, Abs(b.net) - q1);
    } else {
      FillAtOwnPrice(b1, side, q2, p);
    }
  }

  lemma Distribute(g: real, x: real, y: real)
    ensures g * x + g * y == g * (x + y)
  {
  }

  /** Opening, or growing a position that was entered at the fill's own price. */
  lemma FillAtOwnPrice(b: Book, side: Side, q: real, p: real)
    requires q > 0.0
    requires b.net == 0.0 || ((b.net > 0.0) == side.Buy? && b.average == p)
    ensures var t := Trade(side, q, p);
      AfterFill(b, t) == Book(b.net + t.Signed(), p, b.realized)
  {
    var s := Trade(side, q, p).Signed();
    SignOfProduct(b.net, s);
    SameDirectionGrows(b.net, s);
    assert Abs(b.net + s) == Abs(b.net) + Abs(s);
    SameAverage(Abs(b.net), Abs(s), b.average, p);
    hide Abs;
  }

  lemma SameAverage(x: real, y: real, a: real, p: real)
    requires x + y > 0.0 && (x == 0.0 || a == p)
    ensures (x * a + y * p) / (x + y) == p
  {
    if x == 0.0 {
      assert x * a + y * p == y * p;
      assert (y * p) / y == p;
    } else {
      assert x * p + y * p == p * (x + y);
      assert (p * (x + y)) / (x + y) == p;
    }
  }
}
