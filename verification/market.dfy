/** Market data over whole runs: which tick a symbol shows, and what every position is marked at. */
module Market {
  import opened Types
  import opened Numeric
  import opened Tables
  import opened PositionRules
  import History
  import opened Transactions
  import opened Invariant
  import opened Steps
  import InvariantKept

  /** The i-th command is a tick on the symbol with a price the table accepts. */
  predicate TicksAt(m: Storage, cs: seq<Command>, s: string, i: nat) {
    i < |cs| && cs[i].Tick? && cs[i].symbol == s && Stored(m, cs[i].price) > 0.0
  }

  /** The last to arrive among the ticks with the greatest timestamp. */
  ghost predicate LatestTick(m: Storage, cs: seq<Command>, s: string, i: nat) {
    && TicksAt(m, cs, s, i)
    && (forall j: nat :: TicksAt(m, cs, s, j) ==> cs[j].at <= cs[i].at)
    && (forall j: nat :: TicksAt(m, cs, s, j) && j > i ==> cs[j].at < cs[i].at)
  }

  ghost predicate ShowsLatest(m: Storage, db: Db, cs: seq<Command>, s: string) {
    if s in db.quotes then
      exists i: nat :: LatestTick(m, cs, s, i) && TicksAt(m, cs, s, i) && db.quotes[s] == Quote(Stored(m, cs[i].price), cs[i].at)
    else forall i: nat :: !TicksAt(m, cs, s, i)
  }

  lemma QuotesChangeOnlyByTicks(m: Storage, db: Db, c: Command, s: string)
    requires !(c.Tick? && c.symbol == s)
    ensures Lookup(Step(m, db, c).db.quotes, s) == Lookup(db.quotes, s)
  {
    hide Judge;
    hide Stored;
  }

  lemma TickPositions(m: Storage, cs: seq<Command>, c: Command, s: string)
    ensures forall i: nat :: i < |cs| ==> (TicksAt(m, cs + [c], s, i) <==> TicksAt(m, cs, s, i))
    ensures TicksAt(m, cs + [c], s, |cs|) <==> c.Tick? && c.symbol == s && Stored(m, c.price) > 0.0
  {
    hide Stored;
  }

  lemma SameLatest(m: Storage, cs: seq<Command>, c: Command, s: string, i: nat)
    requires LatestTick(m, cs, s, i)
    requires c.Tick? && c.symbol == s && Stored(m, c.price) > 0.0 ==> c.at < cs[i].at
    ensures LatestTick(m, cs + [c], s, i)
  {
    hide Stored;
    TickPositions(m, cs, c, s);
  }

  lemma NewLatest(m: Storage, db: Db, cs: seq<Command>, c: Command, s: string)
    requires ShowsLatest(m, db, cs, s)
    requires c.Tick? && c.symbol == s && Stored(m, c.price) > 0.0
    requires s in db.quotes ==> c.at >= db.quotes[s].observedAt
    ensures LatestTick(m, cs + [c], s, |cs|)
  {
    hide Stored;
    TickPositions(m, cs, c, s);
  }

  lemma ShowsLatestStep(m: Storage, db: Db, cs: seq<Command>, c: Command, s: string)
    requires ShowsLatest(m, db, cs, s)
    ensures ShowsLatest(m, Step(m, db, c).db, cs + [c], s)
  {
    hide Stored;
    hide Judge;
    hide Commit;
    hide LatestTick;
    TickPositions(m, cs, c, s);
    var db' := Step(m, db, c).db;
    if c.Tick? && c.symbol == s && db'.quotes != db.quotes {
      NewLatest(m, db, cs, c, s);
      assert (cs + [c])[|cs|] == c;
    } else if c.Tick? && c.symbol == s && Stored(m, c.price) > 0.0 && !(s in db.quotes && c.at < db.quotes[s].observedAt) {
      NewLatest(m, db, cs, c, s);
      assert (cs + [c])[|cs|] == c;
      assert db'.quotes[s] == Quote(Stored(m, c.price), c.at);
    } else {
      if !(c.Tick? && c.symbol == s) {
        QuotesChangeOnlyByTicks(m, db, c, s);
      }
      assert Lookup(db'.quotes, s) == Lookup(db.quotes, s);
      if s in db.quotes {
        var i: nat :| LatestTick(m, cs, s, i) && TicksAt(m, cs, s, i) && db.quotes[s] == Quote(Stored(m, cs[i].price), cs[i].at);
        SameLatest(m, cs, c, s, i);
        assert (cs + [c])[i] == cs[i];
      }
    }
  }

  /**
   * After any run the stored price of a symbol is that of the last-arriving tick among those with the
   * greatest timestamp; a symbol without an accepted tick has no price.
   */
  lemma {:induction false} LatestTickWins(m: Storage, cs: seq<Command>, s: string)
    ensures ShowsLatest(m, Run(m, EMPTY, cs), cs, s)
  {
    hide Step;
    hide ShowsLatest;
    if cs == [] {
      NothingShown(m, s);
    } else {
      var rest, c := cs[..|cs| - 1], cs[|cs| - 1];
      LatestTickWins(m, rest, s);
      ShowsLatestStep(m, Run(m, EMPTY, rest), rest, c, s);
      assert rest + [c] == cs;
    }
  }

  lemma NothingShown(m: Storage, s: string)
    ensures ShowsLatest(m, EMPTY, [], s)
  {
  }

  /**
   * After any run every position is marked: at its symbol's stored price when there is one, and with an
   * unrealized profit of (mark - average) * net, up to 1 + |net| half-units of storage.
   */
  lemma MarksAgree(m: Storage, db: Db, k: PositionKey)
    requires Reachable(m, db) && k in db.positions
    ensures var p := db.positions[k];
      && p.mark.Some? && p.mark.value > 0.0
      && (k.symbol in db.quotes ==> p.mark.value == db.quotes[k.symbol].price)
      && Within(m, p.unrealized - Notional(p.net, p.mark.value - p.average), 1.0 + Abs(p.net))
  {
    hide Inv;
    hide Reachable;
    hide MarkedAt;
    ReachableInv(m, db);
    MarkOfPosition(m, db, k);
    MarkedValue(m, db.positions[k]);
  }

  lemma MarkedValue(m: Storage, p: Position)
    requires MarkedAt(m, p)
    ensures p.mark.Some? && p.mark.value > 0.0
    ensures Within(m, p.unrealized - Notional(p.net, p.mark.value - p.average), 1.0 + Abs(p.net))
  {
    var u := Unrealized(p.net, p.average, p.mark);
    assert u == Notional(p.net, p.mark.value - p.average);
    hide Unrealized;
  }

  lemma MarkOfPosition(m: Storage, db: Db, k: PositionKey)
    requires Inv(m, db) && k in db.positions
    ensures MarkedAt(m, db.positions[k])
    ensures k.symbol in db.quotes ==> db.positions[k].mark == Some(db.quotes[k.symbol].price)
  {
    hide OrdersInv;
    hide AuditInv;
    hide FillsInv;
    hide LedgerInv;
    hide OutboxInv;
    hide MarkedAt;
    hide IsReplay;
  }

  /** The stored position of every account and symbol is the replay of its fills. */
  lemma PositionIsReplay(m: Storage, db: Db, k: PositionKey)
    requires Reachable(m, db)
    ensures IsReplay(m, BookOf(Lookup(db.positions, k)), History.Trades(db.orders, db.fills, k))
  {
    hide Inv;
    hide Reachable;
    ReachableInv(m, db);
    ReplayOfPosition(m, db, k);
  }

  lemma ReplayOfPosition(m: Storage, db: Db, k: PositionKey)
    requires Inv(m, db)
    ensures IsReplay(m, BookOf(Lookup(db.positions, k)), History.Trades(db.orders, db.fills, k))
  {
    hide OrdersInv;
    hide AuditInv;
    hide FillsInv;
    hide LedgerInv;
    hide OutboxInv;
    hide MarkedAt;
    hide IsReplay;
  }

  /**
   * In every reachable state a position with fills on one side only has booked no profit, and its average price
   * times its net quantity is what was paid for it, up to the exposure of its fills in half-units.
   */
  lemma OneSidedPosition(m: Storage, db: Db, k: PositionKey, side: Side)
    requires Reachable(m, db) && OneSided(History.Trades(db.orders, db.fills, k), side)
    ensures var ts, b := History.Trades(db.orders, db.fills, k), BookOf(Lookup(db.positions, k));
      && AllValid(ts)
      && b.realized == 0.0 && b.net == NetOf(ts)
      && Within(m, Notional(b.net, b.average) - FlowOf(ts), Exposure(m, ts))
  {
    hide Inv;
    hide Reachable;
    hide Replay;
    ReachableInv(m, db);
    ReplayOfPosition(m, db, k);
    TradesAreClean(m, db, k);
    OneSidedReplay(m, History.Trades(db.orders, db.fills, k), side);
    hide CleanQuantities;
    hide OneSided;
    hide Exposure;
    hide Within;
    hide NetOf;
    hide FlowOf;
  }

  lemma TradesAreClean(m: Storage, db: Db, k: PositionKey)
    requires Inv(m, db)
    ensures CleanQuantities(m, History.Trades(db.orders, db.fills, k))
  {
    hide OrdersInv;
    hide AuditInv;
    hide PositionsInv;
    hide LedgerInv;
    hide OutboxInv;
    hide TotalsAgree;
    hide Stored;
    forall i | 0 <= i < |db.fills| ensures Clean(m, db.fills[i].quantity) {
      assert FillRowOk(m, db, db.fills[i]);
    }
    InvariantKept.TradesClean(m, db.orders, db.fills, k);
  }
}
