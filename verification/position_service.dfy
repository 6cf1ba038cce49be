/** The position side of a fill. */
module PositionService {
  import opened Types
  import opened Tables
  import opened Transactions
  import opened Database
  import PositionRules

  /** Create or update the position of a fill and mark it at the market price, or at the fill without one. */
  method ApplyExecution(session: Session, key: PositionKey, side: Side, quantity: real, price: real)
    requires session.position == null && quantity > 0.0
    modifies session`position
    ensures session.position != null && fresh(session.position) && session.position.key == key
    ensures session.position.Value() ==
      Execute(Lookup(session.database.positions, key), MarkOf(session.database.quotes, key.symbol),
              PositionRules.Trade(side, quantity, price))
  {
    hide PositionRules.AfterFill;
    hide PositionRules.Unrealized;
    var position := session.LockPosition(key);
    var quotes := session.database.quotes;
    var mark := if key.symbol in quotes then quotes[key.symbol].price else price;
    if position == null {
      position := new PositionRow(key, Position(0.0, 0.0, 0.0, 0.0, Some(mark)));
      session.position := position;
    }
    var result := PositionRules.AfterFill(
      PositionRules.Book(position.net, position.average, position.realized), PositionRules.Trade(side, quantity, price));
    position.net := result.net;
    position.average := result.average;
    position.realized := result.realized;
    position.mark := Some(mark);
    position.unrealized := PositionRules.Unrealized(position.net, position.average, position.mark);
  }
}
