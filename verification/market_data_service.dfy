/** Market ticks: the stored price of a symbol, and the marks of every position in it. */
module MarketDataService {
  import opened Types
  import opened Numeric
  import opened Tables
  import opened Transactions
  import opened Database
  import PositionRules

  /** Insert or overwrite the price of a symbol, unless a newer one is stored. */
  method Upsert(database: Database, symbol: string, price: real, at: int) returns (row: PriceRow, applied: bool)
    ensures fresh(row) && row.symbol == symbol
    ensures applied == (symbol in database.quotes ==> at >= database.quotes[symbol].observedAt)
    ensures row.Value() == if applied then Quote(price, at) else database.quotes[symbol]
  {
    if symbol !in database.quotes {
      row := new PriceRow(symbol, Quote(price, at));
      return row, true;
    }
    row := new PriceRow(symbol, database.quotes[symbol]);
    applied := false;
    if at >= row.observedAt {
      row.price := price;
      row.observedAt := at;
      applied := true;
    }
  }

  /** The positions of a symbol, one row object each. */
  ghost predicate Loaded(rows: seq<PositionRow>, keys: set<PositionKey>) {
    && (forall i, j :: 0 <= i < j < |rows| ==> rows[i] != rows[j] && rows[i].key != rows[j].key)
    && (forall k :: k in keys <==> HasRow(rows, k))
  }

  ghost predicate HasRow(rows: seq<PositionRow>, k: PositionKey) { exists i :: 0 <= i < |rows| && rows[i].key == k }

  lemma OneMoreRow(rows: seq<PositionRow>, row: PositionRow, keys: set<PositionKey>)
    requires Loaded(rows, keys) && row !in rows && row.key !in keys
    ensures Loaded(rows + [row], keys + {row.key})
  {
    var all := rows + [row];
    assert all[|rows|] == row;
    assert forall i :: 0 <= i < |rows| ==> all[i] == rows[i] && HasRow(rows, rows[i].key);
    forall k | k in keys ensures HasRow(all, k) {
      var i :| 0 <= i < |rows| && rows[i].key == k;
      assert all[i].key == k;
    }
    forall k | HasRow(all, k) ensures k in keys + {row.key} {
      var i :| 0 <= i < |all| && all[i].key == k;
      if i < |rows| {
        assert HasRow(rows, k);
      }
    }
  }

  lemma OneMoreKey(all: set<PositionKey>, left: set<PositionKey>, k: PositionKey)
    requires k in left && left <= all
    ensures all - (left - {k}) == all - left + {k} && k !in all - left && |left - {k}| < |left|
  {
  }

  function KeysOf(positions: map<PositionKey, Position>, symbol: string): set<PositionKey> {
    set k | k in positions && k.symbol == symbol
  }

  method ListBySymbol(database: Database, symbol: string) returns (rows: seq<PositionRow>)
    ensures Loaded(rows, KeysOf(database.positions, symbol))
    ensures forall row :: row in rows ==>
      fresh(row) && row.key in database.positions && row.Value() == database.positions[row.key]
  {
    rows := [];
    var all := KeysOf(database.positions, symbol);
    var left := all;
    assert Loaded(rows, {}) && all - left == {} && all <= database.positions.Keys;
    hide Loaded;
    hide HasRow;
    hide KeysOf;
    while left != {}
      invariant left <= all
      invariant Loaded(rows, all - left)
      invariant forall row :: row in rows ==> fresh(row) && row.key in all && row.Value() == database.positions[row.key]
      decreases |left|
    {
      var k :| k in left;
      var row := new PositionRow(k, database.positions[k]);
      OneMoreKey(all, left, k);
      OneMoreRow(rows, row, all - left);
      rows := rows + [row];
      left := left - {k};
    }
    assert all - left == all;
  }

  /** Mark every loaded position at the price of the tick. */
  method MarkAll(rows: seq<PositionRow>, price: real)
    requires forall i, j :: 0 <= i < j < |rows| ==> rows[i] != rows[j]
    modifies rows
    ensures forall i :: 0 <= i < |rows| ==> rows[i].Value() == old(rows[i].Value()).(
      mark := Some(price), unrealized := PositionRules.Unrealized(old(rows[i].net), old(rows[i].average), Some(price)))
  {
    for i := 0 to |rows|
      invariant forall j :: 0 <= j < i ==> rows[j].Value() == old(rows[j].Value()).(
        mark := Some(price), unrealized := PositionRules.Unrealized(old(rows[j].net), old(rows[j].average), Some(price)))
      invariant forall j :: i <= j < |rows| ==> rows[j].Value() == old(rows[j].Value())
    {
      var position := rows[i];
      position.mark := Some(price);
      position.unrealized := PositionRules.Unrealized(position.net, position.average, Some(price));
    }
  }

  /** Write the marked columns of the loaded rows back to the table. */
  method SaveMarks(database: Database, rows: seq<PositionRow>)
    requires forall i, j :: 0 <= i < j < |rows| ==> rows[i].key != rows[j].key
    requires forall i :: 0 <= i < |rows| ==> rows[i].key in database.positions
    modifies database`positions
    ensures database.positions.Keys == old(database.positions.Keys)
    ensures forall i :: 0 <= i < |rows| ==>
      database.positions[rows[i].key] == Saved(database.storage, old(database.positions[rows[i].key]), rows[i].Value())
    ensures forall k :: k in database.positions && !HasRow(rows, k) ==> database.positions[k] == old(database.positions[k])
  {
    hide Saved;
    for i := 0 to |rows|
      invariant database.positions.Keys == old(database.positions.Keys)
      invariant forall j :: 0 <= j < i ==>
        database.positions[rows[j].key] == Saved(database.storage, old(database.positions[rows[j].key]), rows[j].Value())
      invariant forall j :: i <= j < |rows| ==> database.positions[rows[j].key] == old(database.positions[rows[j].key])
      invariant forall k :: k in database.positions && !HasRow(rows, k) ==> database.positions[k] == old(database.positions[k])
    {
      var k := rows[i].key;
      database.positions := database.positions[k := Saved(database.storage, database.positions[k], rows[i].Value())];
    }
  }

  /** The stored row after its mark and unrealized profit have been written. */
  function Saved(m: Storage, stored: Position, row: Position): Position {
    stored.(mark := StoredOption(m, row.mark), unrealized := Stored(m, row.unrealized))
  }

  /** Mark every position of a symbol and write the marks back. */
  method MarkSymbol(database: Database, symbol: string, price: real)
    modifies database`positions
    ensures database.positions == map k | k in old(database.positions) ::
      if k.symbol == symbol then Remark(database.storage, old(database.positions)[k], price) else old(database.positions)[k]
  {
    hide Stored;
    hide PositionRules.Unrealized;
    var rows := ListBySymbol(database, symbol);
    assert forall k :: k in database.positions && k.symbol == symbol ==> HasRow(rows, k);
    forall i | 0 <= i < |rows| ensures fresh(rows[i]) {
      assert rows[i] in rows;
    }
    MarkAll(rows, price);
    SaveMarks(database, rows);
    forall k | k in old(database.positions)
      ensures database.positions[k] ==
        if k.symbol == symbol then Remark(database.storage, old(database.positions)[k], price) else old(database.positions)[k]
    {
      if k.symbol == symbol {
        var i :| 0 <= i < |rows| && rows[i].key == k;
      }
    }
  }

  /** One tick: the newest price wins, and every position of the symbol is marked at it. */
  method ApplyTick(database: Database, symbol: string, price: real, at: int, ghost calls: seq<Outbound>) returns (outcome: Outcome)
    requires database.Valid()
    modifies database
    ensures database.Valid()
    ensures Result(database.Tables(calls), outcome) == Step(database.storage, old(database.Tables(calls)), Tick(symbol, price, at))
  {
    hide OrdersOk;
    hide Stored;
    hide PositionRules.Unrealized;
    var row, applied := Upsert(database, symbol, price, at);
    if !applied {
      return Ok(Done);
    }
    if Stored(database.storage, row.price) <= 0.0 {
      return Fail(ConstraintViolation);
    }
    database.quotes := database.quotes[symbol := Quote(Stored(database.storage, row.price), row.observedAt)];
    MarkSymbol(database, symbol, price);
    outcome := Ok(Done);
  }
}
