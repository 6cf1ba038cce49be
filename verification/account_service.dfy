/** Opening accounts. */
module AccountService {
  import opened Types
  import opened Numeric
  import opened Tables
  import opened Transactions
  import opened Database

  /** Open an account; a second one for the same user, or one the table refuses, is reported as a duplicate. */
  method CreateAccount(database: Database, id: Uuid, userId: string, cash: real, ghost calls: seq<Outbound>) returns (outcome: Outcome)
    requires database.Valid()
    modifies database`accounts
    ensures database.Valid()
    ensures Result(database.Tables(calls), outcome) == Step(database.storage, old(database.Tables(calls)), Open(id, userId, cash))
  {
    hide OrdersOk;
    hide Stored;
    if exists x :: x in database.accounts && database.accounts[x].userId == userId {
      return Fail(DuplicateAccount);
    }
    var account := new AccountRow(id, Account(userId, cash, 0.0, 1));
    var stored := StoreAccount(database.storage, account.Value());
    if id in database.accounts || !AccountChecks(stored) {
      return Fail(DuplicateAccount);
    }
    database.accounts := database.accounts[id := stored];
    return Ok(Done);
  }
}
