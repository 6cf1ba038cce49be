# Verification of the order management core

A Dafny model of the transactional core of the order management system, with proofs of what its
transactions keep, what whole runs of them add up to, and what concurrency, rounding and the simulated
broker can and cannot do to them.

## What is modelled

The state is a database of accounts, orders, positions, prices, processed broker events, fills and audit
entries, next to the calls made to the broker. Its steps are the service transactions: open an account,
create an order, record a failed submission, request a cancellation, handle a broker event, apply a tick.
A raised error or a failed check or unique constraint rolls the step back.

There are three layers over one set of definitions.

- **Values.** `transactions.dfy` judges each transaction on the rows it read (`Judge`), and `tables.dfy`
  writes the resulting change (`Commit`). `Step` is one transaction, `Run` a list of them, `Reachable` a
  state some run leads to. `Storage` is a parameter: `Exact` keeps every value, `Scale8` rounds each written
  column to eight decimals with ties away from zero, once per column and transaction. `Within(m, x, k)` says
  that x is at most k half-units of 10^-8 from zero in `Scale8` and is zero in `Exact`, so one theorem covers
  both.
- **Objects.** `database.dfy` holds rows as objects that services update in place, and a session that loads,
  locks, checks and commits them. `order_lifecycle.dfy`, `execution_service.dfy`, `position_service.dfy`,
  `order_service.dfy`, `cancellation_service.dfy`, `market_data_service.dfy`, `account_service.dfy` and
  `fake_broker.dfy` follow the service code branch by branch; each public method is proved to leave the
  tables, and to answer, exactly as the atomic step does. `InvalidStateTransition` cannot be raised from any
  of them: every call site proves that the transition is allowed.
- **Systems.** `row_locks.dfy` interleaves lock, read, commit and rollback moves of any number of
  transactions. `simulated_broker.dfy` adds the broker's tasks and random draws, the event queue and the
  worker, for every schedule.

The proofs are organised by subject: `position_rules.dfy` (fill arithmetic), `history.dfy`, `invariant.dfy`,
`invariant_kept.dfy` and `steps.dfy` (the relations between tables, kept by every step), `money.dfy`
(reservation ledger, equity, average prices, account summary), `guards.dfy` (exactly when transactions fail),
`outcomes.dfy` (what each transaction answers and writes, and that an execution happens once), `rounding.dfy`
(which runs rounding can and cannot hurt), `fine_fills.dfy` (fills with more than eight decimals),
`dropped_fills.dfy` (a fill the worker drops), `lifecycle.dfy` (audit log, at-most-once, idempotency,
termination), `market.dfy` (ticks and marks) and `callbacks.dfy` (arrival order of simultaneous fills).

## Findings

- With amounts rounded to eight decimals the consistency check on reserved cash is reachable. A buy of
  0.00000001 at 0.4 reserves nothing, because its notional is below half a unit. While the account has nothing
  else reserved, its fills, its rejection and its cancellation all raise InvalidFill, and the worker drops
  them; once another order has left enough reserved, the same event commits, out of that order's reservation.
- With rounding, a failed submission may be impossible to record. Two buys and two partial fills can leave
  nothing reserved for a routed order worth 0.6 units; the unguarded subtraction is then stored as -1 unit, the
  table refuses it, and the order stays routed.
- `guards.dfy` gives the exact condition for fills, rejections, cancellations and failed submissions to
  commit, in either form of storage. In exact storage those on the reservation always hold; with rounding they
  hold while the account's drift is not negative, in particular after runs whose notionals are all stored as
  they are.
- In exact storage, a fill above the limit price is accepted exactly when the account's free cash covers the
  excess (`Guards.ExactFillCommitsIff`).
- So the worker can drop a fill of the repository's own simulated broker: `DroppedFills.WorkerCanDropAFill` is
  a schedule of three turns that gets there, after which the order is routed for good.
  `SimulatedBroker.NextIsDroppedIff` says exactly which event is the first to be dropped.
- Event validation puts no limit on decimals (app/schemas/broker.py:41-53), and rounded storage then loses two
  relations. A fill of 0.000000013 on a buy of 0.00000002 at 1000 is applied and moves reserved cash 300 units
  away from what the order holds; a commit keeps the ledger within its half-unit if and only if the slip stated
  in `FineFills.FillMovesLedgerBy` is within one. A fill of 0.000000017 on the same buy leaves it
  PARTIALLY_FILLED with nothing remaining and 300 units reserved that no later event for it releases, because a
  remainder of zero is skipped (app/services/execution_service.py:328-330); the row stays coherent if and only
  if the fill takes everything or what it leaves is not stored as zero (`FineFills.FillKeepsOrderIff`).
- The documentation says that invalid callbacks are recorded as ignored (README.md:313). The code records an
  over-fill, a full fill of the wrong size and a stale event, but a fill without a price or with a
  non-positive quantity raises and leaves no record (app/services/execution_service.py:137-140);
  `Guards.NoEffectIsRecordedIff` states both sides. The model follows the code; event validation excludes such
  fills before they reach the service.

## Assumptions

- A locking read sees the latest committed row. This includes the transaction that records a failed
  submission, which reuses a session whose objects are not expired on commit (app/database.py:25-30).
- At most one tick transaction is in progress at a time (app/main.py:58-68).
- Decimal arithmetic before storage is exact and magnitudes stay in range.
- Identifiers the system generates are new: an order id that is taken is refused as a constraint violation,
  and the broker's event and execution ids are new by the rule that lets a task wake up.
- Symbols arrive normalised.
- When storage rounds, quantities and prices have at most eight decimals (`Steps.CleanCommand`): those of
  orders because request validation demands it (app/schemas/order.py:24-25), those of fills by assumption
  about the broker. The simulated broker meets it: it rounds its partial quantities to eight decimals and
  quotes the order's price (app/broker/fake.py:87, 112-119).
- The clock, random draws, delays and outages are parameters of the steps.

## Model

| member | source | states |
|---|---|---|
| Numeric.Stored | app/models/account.py:24-29 | a NUMERIC(24, 8) column holds a value at most half a unit of 10^-8 away from what was written; exact storage holds the value itself |
| Numeric.TiesGoAwayFromZero | app/models/account.py:24-29 | a value halfway between two stored ones goes to the one further from zero, symmetrically on both sides of it |
| Numeric.CleanIsWhole | app/schemas/order.py:24-25 | a value survives storage unchanged if and only if it is a whole number of 10^-8 units, which is what request validation demands of quantities and prices |
| OrderRules.TransitionsMoveForward | app/domain/order_state_machine.py:4-34 | the transition table has no cycle, and the statuses without a successor are exactly FILLED, REJECTED and CANCELLED |
| OrderRules.TransitionsByTarget | app/domain/order_state_machine.py:4-52 | from which statuses each status can be entered; an order can be filled or cancelled at the broker exactly while it is working, and asked to be cancelled exactly while it is cancellable |
| PositionRules.FillConserves | app/domain/position_rules.py:25-57 | opening, increasing, reducing, closing and crossing all move net by the signed quantity and net * average - realized by signed quantity * price |
| PositionRules.GrowthCases | app/domain/position_rules.py:27-37 | opening or growing a position books no profit; the new average times the new size is old size times old average plus quantity times price, and lies between the old average and the price |
| PositionRules.AgainstCases | app/domain/position_rules.py:39-57 | a fill against the position books price minus average per unit closed: reducing keeps the average, closing leaves zero, crossing starts again at the fill price |
| PositionRules.OneSidedReplay | app/domain/position_rules.py:16-68 | in either form of storage, a fill list on one side only books no profit, never closes, and its net times average is what was paid, up to the rounding of its fills |
| PositionRules.OneSidedAverage | app/domain/position_rules.py:27-37 | in exact storage the entry price of such a list is the weighted mean of its prices and lies between the least and the greatest |
| PositionRules.FillKeepsCoherent | app/domain/position_rules.py:45-51 | after any fill the average is zero exactly when the position is flat, and positive otherwise |
| PositionRules.ReplayDrift | app/models/position.py:32-40 | over any fill list, net is exact and net * average - realized differs from the sum of signed quantity * price by at most half a unit times the sum of 1 + abs(net); by nothing in exact storage |
| PositionRules.ReplayExact | app/domain/position_rules.py:16-68 | from the empty position, net and realized profit are those of the signed fill list, and total profit at any mark is mark * net minus the cash paid in |
| PositionRules.PnlIndependentOfOrder | app/domain/position_rules.py:16-68 | any permutation of a fill list gives the same net quantity and the same total profit at every mark |
| PositionRules.SplitInvariant | app/domain/position_rules.py:16-57 | filling q1 + q2 at one price equals filling q1 then q2, from every starting sign and size, through flat and through a crossing |
| InvariantKept.DriftStep | app/services/execution_service.py:175-186 | a committed change moves reserved cash and the open buy notional apart by at most one half-unit, and only if it wrote the account |
| InvariantKept.GoodChangeKeepsInv | app/services/execution_service.py:48-92 | a change that is right about its own order, account, fill, position, audit entries and calls keeps every relation between the tables |
| Steps.WriteIsGood | app/services/order_service.py:100-175 | whatever a transaction on an order writes is such a change, in either form of storage, when amounts are stored as they are |
| Steps.StepKeepsInv | app/services/execution_service.py:48-92 | every transaction, committed or rolled back, keeps the relations between orders, audit log, fills, accounts, positions and broker calls; rounded storage asks for orders and fills of at most eight decimals |
| Steps.RunKeepsInv | app/services/execution_service.py:48-92 | the same over every run of transactions |
| Steps.LeadsIsRun | app/services/execution_service.py:43-103 | a state leads to another through committed states if and only if a run of well-formed commands does |
| Money.StepDrift | app/services/execution_service.py:328-336 | one transaction adds at most half a unit of drift to an account's reservation, and none when it does not write the account |
| Money.ReservationLedger | app/services/execution_service.py:175-186 | after any run, reserved cash differs from the sum of remaining * price over the account's open buys by at most half a unit per committed transaction that wrote the account |
| Money.ReservationExact | app/services/order_service.py:165-167 | in exact storage reserved cash equals that sum in every reachable state, and lies between zero and the cash balance |
| Money.HeldStaysWhole | app/services/execution_service.py:149-156 | a placed buy or a fill of the account whose notional is stored as it is keeps what every order holds in the account stored as it is |
| Money.ReservationWithoutDrift | app/models/account.py:27-29 | with rounding, reserved cash still equals that sum after a run in which every placed buy of the account, and every fill of one, has a notional of at most eight decimals |
| Money.StepKeepsEquity | app/services/execution_service.py:175-195 | cash + sum of net * average - sum of realized is kept by every transaction, up to the rounding weight of its fill |
| Money.EquityOverRuns | app/services/execution_service.py:175-195 | the same over every run: exactly in exact storage |
| Money.SummaryAgainstInvested | app/services/pnl_service.py:20-32 | the summary's total over any listing of an account's positions equals their market value minus what they cost net of realized profit, up to 1 + abs(net) half-units per position when storage rounds |
| Money.SummaryColumns | app/services/pnl_service.py:20-32 | over any listing of an account's positions, realized is the sum of their realized column, unrealized of their unrealized column, and total the sum of both |
| Money.UnrealizedAtMarks | app/services/pnl_service.py:25-32 | the unrealized column is the sum of (mark - average) * net, up to 1 + abs(net) half-units per position when storage rounds |
| Money.EquityWithRounding | app/services/pnl_service.py:20-32 | cash plus marked holdings equals the stored opening balance plus the total profit the summary reports, over every run from the opening of the account, up to the rounding weight of its fills and marks |
| Money.EquityIdentity | app/services/pnl_service.py:20-32 | in exact storage it is an equality, in every state reachable from the opening of the account |
| Money.AverageFillPrice | app/services/execution_service.py:149-157 | the stored average is within n half-units of fill value / filled quantity after n fills; exactly equal in exact storage and between the least and greatest fill price |
| Guards.HoldingIsReserved | app/services/execution_service.py:332-336 | in either form of storage, while its account's drift is not negative, what one order holds is never more than the account has reserved |
| Guards.ExactIsBacked | app/services/execution_service.py:332-336 | in exact storage every order's holding is reserved |
| Guards.ExecutePassesChecks | app/models/position.py:15-22 | a valid execution never violates the position table's checks, in either form of storage |
| Guards.FillCommitsIff | app/services/execution_service.py:171-186 | in either form of storage, a fill past the guards commits if and only if its release is reserved, its cost is in cash, and the reservation left fits the cash left as stored |
| Guards.WithinLimitFillCommitsIff | app/services/execution_service.py:176-186 | in either form of storage, a fill at or below the limit commits if and only if what it takes out of the reservation is still reserved |
| Guards.ExactFillCommitsIff | app/services/execution_service.py:171-186 | in exact storage, a fill past the guards commits if and only if what it costs above the limit is covered by available cash |
| Guards.ClosingCommitsIff | app/services/execution_service.py:250-336 | in either form of storage, a rejection or cancellation that takes effect commits if and only if what it releases is still reserved, and raises InvalidFill otherwise |
| Guards.FillsNeverLowerAvailable | app/models/account.py:35-37 | in either form of storage, fills at or below the limit never lower available cash |
| Guards.KnownEventsNeverFail | app/services/execution_service.py:105-147 | in either form of storage, a well-formed event with a new execution for a known order whose holding is reserved, a buy executing at or below the limit, never raises: it is applied exactly when it takes effect, and ignored or a duplicate otherwise |
| Guards.RoutingFailureCommitsIff | app/services/order_service.py:214-234 | in either form of storage, the failed submission of a routed order is recorded unless the unguarded subtraction is stored as a negative reservation; then the table refuses it |
| Guards.RoutingFailureNeverFails | app/services/order_service.py:214-234 | in either form of storage, the failed submission of an order whose holding is reserved is always recorded |
| Guards.PlacementNeverBreaksConstraints | app/services/order_service.py:71-175 | in either form of storage, a valid submission for a known account is stored or refused as a duplicate; no table check ever rejects it |
| Guards.NoEffectIsRecordedIff | app/services/execution_service.py:122-147 | a new event that does not take effect on a known order is recorded as ignored, unless it is a fill without a price or with a non-positive quantity for a working order: that one raises and changes nothing |
| Outcomes.OpeningAnswered | app/services/account_service.py:17-39 | an account is opened if and only if its id and its user are new and its cash is not negative; otherwise a duplicate is reported and nothing changes |
| Outcomes.PlacementAnswered | app/services/order_service.py:94-189 | a new order is routed if and only if it sells or its quantity times price is within free cash; every column of the order, the account, the log entries and the one submission with its fields are as stated, and a rejected order touches neither account nor broker |
| Outcomes.PlacementRefused | app/services/order_service.py:71-92 | an unknown account, a key taken by an order that says something else and a taken client order id are refused, a key taken by an order that says the same is answered with that order; nothing changes |
| Outcomes.CancellationAnswered | app/services/cancellation_service.py:37-64 | by status: a routed or partially filled order becomes cancel-pending, with one log entry, one call and nothing else changed; a pending one is answered again; a finished one is refused; an unknown one is not found |
| Outcomes.RoutingFailureAnswered | app/services/order_service.py:208-234 | an order no longer routed is left alone; a routed one is rejected with the reason given and gives back its reservation, unless what is left is stored as negative |
| Outcomes.FailedSubmissionIsUndone | app/services/order_service.py:165-234 | placing an order and recording its failed submission leaves cash, reservation, positions, fills and event records as they were and the order as rejected; rounded storage asks for a cost of at most eight decimals |
| Outcomes.EventsWithoutEffect | app/services/execution_service.py:48-147 | by what the event finds: not found, answered before, late or of the wrong size (recorded and noted in the log, nothing else), or malformed (raises without a trace); any other event is applied, or raises without a trace |
| Outcomes.ClosingAnswered | app/services/execution_service.py:250-336 | a rejection of a routed order or a cancellation of an open one closes it with its reason and gives back what a buy still reserved, if that much is reserved; otherwise it raises and changes nothing |
| Outcomes.FillRecorded | app/services/execution_service.py:159-169 | an applied fill appends one row under the broker's execution id, or the event id without one, both new; it records its event and writes no other order, account or position |
| Outcomes.FillSettled | app/services/execution_service.py:149-248 | quantities, average, status, log entries, cash, reservation and version after an applied fill, for a whole fill, a resting part and an IOC part |
| Outcomes.FillMovesPosition | app/services/position_service.py:36-68 | the book moves by the fill; the mark is the symbol's stored price, or the fill price while it has none; unrealized profit is (mark - average) * net |
| Outcomes.TickAnswered | app/services/market_data_service.py:29-49 | an older tick does nothing; any other is stored and moves mark and unrealized profit of the symbol's positions, and nothing else |
| Outcomes.KnownExecutionIsRefused | app/models/fill.py:28 | a fill whose execution id has a row is never applied; past the guard it is refused as a constraint violation and changes nothing |
| Outcomes.ExecutionHappensOnce | app/models/fill.py:25-28 | once a fill under an execution id was applied, no other fill event under that id is ever applied, after any commands and for any order |
| Rounding.WholeRunsNeverFail | app/services/execution_service.py:176-186 | in either form of storage, after a run whose placed buys and fills of one account have notionals stored as they are, events at or below the limit for its orders never raise and failed submissions are always recorded |
| Rounding.UnbackedIsStranded | app/services/execution_service.py:328-336 | as long as its account has nothing reserved, every rejection, cancellation and fill of a working buy, whole or partial and at any price, raises and changes nothing |
| Rounding.RoundingStrandsAnOrder | app/services/order_service.py:129-167 | such an order is reachable with rounding: buying 0.00000001 at 0.4 reserves nothing |
| Rounding.RoundingBlocksRoutingFailure | app/services/order_service.py:223-225 | with rounding, a routed order is reachable whose failed submission cannot be recorded: the subtraction is stored as a negative reservation and the table refuses it |
| FineFills.FillMovesLedgerBy | app/services/execution_service.py:149-186 | a fill of any decimals that commits moves drift by exactly an amount read from the rows and the event before the call, so it keeps the half-unit bound if and only if that amount is within half a unit: zero for a sale; for a buy, how far storing moves the new reservation, less the price times how far storing moves what is left resting |
| FineFills.FillKeepsOrderIff | app/services/execution_service.py:149-156 | a fill of any decimals that commits adds its stored quantity, and leaves a row whose status fits its quantities if and only if it takes everything or what it leaves is not stored as zero |
| FineFills.NothingLeftReleasesNothing | app/services/execution_service.py:328-330 | no event for an order with nothing left to fill changes any account, and nothing stays left |
| FineFills.FineFillsBreakTheLedger | app/schemas/broker.py:41-53 | with rounding, a fill of 0.000000013 passes event validation, is applied in a reachable state, and moves reserved cash 300 units of 10^-8 away from the open buy notional |
| FineFills.FineFillsStrandAReservation | app/schemas/broker.py:41-53 | with rounding, a fill of 0.000000017 on the same buy is applied and leaves it partially filled with nothing left, while 300 units stay reserved that no open order holds |
| Lifecycle.FinishedOrdersStay | app/services/execution_service.py:80-92 | the only thing ever written about a finished order is that an event was ignored; its row stays as it is |
| Lifecycle.RunExtends | app/services/order_lifecycle.py:16-58 | over any run accounts, order identities, finished orders, event records, fills, audit entries and broker calls are only added to |
| Lifecycle.AuditIsReplayablePath | app/services/order_lifecycle.py:37-58 | an order's audit entries replay from creation to its status through allowed transitions; later states only append, and only self-links once it is finished |
| Lifecycle.StatusQuantityCoherence | app/models/order.py:49-52 | quantities add up and fit the status in every reachable state; NEW and VALIDATED are never seen, and an IOC order with a fill is finished |
| Lifecycle.RedeliveryChangesNothing | app/services/execution_service.py:53-65 | delivering an answered event id again, at any later time and with any content, changes nothing |
| Lifecycle.OneFillRowPerEvent | app/models/fill.py:25-28 | no two fill rows share an event id or an execution id |
| Lifecycle.FillRowsAreRecorded | app/services/execution_service.py:66-78 | every fill row belongs to a known order and to the record of an applied event for that order |
| Lifecycle.FilledIsTheSumOfRows | app/services/execution_service.py:155-169 | every order's filled quantity is the sum of its fill rows |
| Lifecycle.SubmissionIsIdempotent | app/services/order_service.py:76-92 | resubmitting an answered payload after anything else returns the same order and changes nothing; another payload under that key is refused without change |
| Lifecycle.KeysStayUnique | app/models/order.py:28-37 | no two orders of an account ever share an idempotency key or a client order id |
| Lifecycle.OneAccountPerUser | app/services/account_service.py:23-39 | in every reachable state no two accounts belong to one user |
| Lifecycle.BrokerCalledOnce | app/services/cancellation_service.py:56-59 | the broker is asked to work an order exactly once if it was routed and to cancel it exactly once if that was requested, never otherwise |
| Lifecycle.FinitelyManyEventsApply | app/services/execution_service.py:149-248 | over any run an order accepts at most as many events as it has 10^-8 units left to fill |
| Market.LatestTickWins | app/repositories/market_data_repository.py:26-41 | after any run a symbol's price is that of the last-arriving tick among those with the greatest timestamp |
| Market.MarksAgree | app/services/market_data_service.py:39-49 | in every reachable state each position is marked at its symbol's stored price, with unrealized profit (mark - average) * net up to 1 + abs(net) half-units |
| Market.PositionIsReplay | app/services/position_service.py:51-61 | every stored position is the replay of its own fill rows |
| Market.OneSidedPosition | app/services/position_service.py:51-61 | in every reachable state a position with fills on one side only has realized nothing, and its net times average is what was paid for it, up to the rounding of its fills |
| Callbacks.BatchIsApplied | app/services/execution_service.py:141-195 | in either form of storage, every callback of a batch that fits a resting order is applied; quantities, status, account and net quantity stand at the batch's totals, the average price and net * average - realized up to a stated rounding per callback; rounded storage asks for notionals that are stored as they are and an order its reservation covers |
| Callbacks.PermutedBatch | app/services/execution_service.py:141-147 | fitting an order does not depend on the order of the callbacks |
| Callbacks.ArrivalOrderDoesNotMatter | app/services/execution_service.py:141-248 | in either form of storage, every permutation of such a batch is applied in full and ends with the same accounts, the same orders but for an average within 2n half-units after n callbacks, the same net quantities, and total profits at every mark within 2n half-units times 1 + abs(net) + the batch's quantity |
| Callbacks.ExactArrivalOrder | app/services/execution_service.py:141-248 | in exact storage orders, accounts, net quantities and total profits at every mark are the very same |
| RowLocks.JudgeUpToMark | app/services/position_service.py:36-38 | the unlocked market price decides nothing a transaction writes, except the mark |
| RowLocks.StepUpToMark | app/services/position_service.py:36-67 | two databases that differ only in marks differ only in marks after the same transaction |
| RowLocks.MoveKeepsWorld | app/services/execution_service.py:48-49 | under every lock, read, commit and rollback move, the rows a transaction has read under lock are still the committed ones |
| RowLocks.CommitIsAtomic | app/services/execution_service.py:48-92 | what an interleaved transaction commits is what the atomic transaction would write at that moment, marks aside |
| RowLocks.InterleavingsAreSerial | app/services/execution_service.py:48-92 | every interleaving leaves the tables as the serial run of the committed transactions in commit order, marks aside |
| RowLocks.ConcurrentStatesAreSerial | app/services/order_service.py:71-72 | concurrent runs only reach accounts, orders, fills, records, calls and position books of a serially reachable state |
| RowLocks.LocksAreKept | app/repositories/order_repository.py:28-36 | a lock is given up only when its holder ends |
| RowLocks.CommitsFollowLocks | app/services/execution_service.py:48-49 | if one transaction holds a lock before another does, it ends first, and if both commit its command comes first in the serial order |
| RowLocks.NoWaitCycle | app/services/execution_service.py:171-195 | transactions never wait for one another in a circle, and no chain of waits is longer than three |
| RowLocks.SomeoneCanMove | app/services/execution_service.py:171-195 | while transactions are in flight one of them is not blocked |
| SimulatedBroker.PartialQuantityFits | app/broker/fake.py:112-119 | for every draw a partial quantity is positive and within what remains, rounded down by less than a step, the whole remainder exactly when the drawn share is below one step |
| SimulatedBroker.EmittedFits | app/broker/fake.py:66-97 | what a waking task emits and what it still plans are, in order, what the order can take |
| SimulatedBroker.EmittedIsValid | app/broker/fake.py:99-110 | every event the broker builds passes event validation, is priced at the order's limit, and has an amount that is stored as it is when the order's is |
| SimulatedBroker.WakeAnswered | app/broker/fake.py:58-129 | every field of the one event each kind of task puts on the queue; only a partial fill of a resting order that leaves something is followed by another event, for exactly the rest |
| SimulatedBroker.EventHandled | app/services/execution_service.py:105-120 | in either form of storage, a queued event that does not raise changes its order, event record and fill rows as stated |
| SimulatedBroker.SystemStaysOk | app/broker/worker.py:42-59 | in either form of storage, over every schedule of clients, broker draws, worker turns and shutdowns in which nothing has been dropped, the queue and the broker tasks claim no more than each order can take, in order |
| SimulatedBroker.GoodSchedules | app/broker/worker.py:42-59 | nothing is ever dropped and no account drifts in exact storage, nor in rounded storage when buys are priced in whole units |
| SimulatedBroker.NextIsDroppedIff | app/broker/worker.py:49-59 | in either form of storage, while nothing has been dropped: the next event raises and is dropped if and only if it takes effect and takes more out of the reservation than is there; otherwise it is answered as it should be |
| SimulatedBroker.WorkerNeverDropsAFill | app/broker/worker.py:42-59 | for every schedule that GoodSchedules covers the next event is handled without an error; a fill is applied if and only if its order is not finished |
| DroppedFills.WorkerCanDropAFill | app/broker/worker.py:49-59 | a schedule of three turns with rounding after which the worker drops a full fill: the tables stay as they are, the order stays routed, and no task and no event is left |
| SimulatedBroker.NothingLeftHanging | app/broker/fake.py:58-97 | without a shutdown and with nothing dropped, once no broker task and no event is left, every order is finished or rests partially filled and is not IOC |
| SimulatedBroker.ShutdownLeavesHanging | app/broker/fake.py:131-137 | a shutdown drops the tasks and leaves tables and queue; if the worker still empties the queue without an error, an order is left routed if and only if it was and nothing was queued for it, and left with a pending cancellation if and only if none was queued and its queued fills leave a rest |
| Database.Session.LockOrder | app/repositories/order_repository.py:28-36 | the latest committed row, as an object of its own, or nothing |
| Database.Session.LockAccount | app/repositories/account_repository.py:22-32 | the latest committed row, or the object the session already holds |
| Database.Session.LockPosition | app/repositories/position_repository.py:15-29 | the latest committed row, as an object of its own, or nothing |
| Database.Database.Write | app/database.py:25-30 | a commit rounds and writes exactly the changed rows and appends the new ones; keys stay unique |
| Database.Session.Finish | app/services/execution_service.py:48-92 | leaving the transaction commits what the session holds, or leaves the tables as they were and reports the error or the failed constraint |
| OrderLifecycle.AppendEvent | app/services/order_lifecycle.py:16-35 | one audit entry is appended and nothing else changes |
| OrderLifecycle.Transition | app/services/order_lifecycle.py:37-58 | the status changes and one entry is appended if the table allows it; otherwise nothing changes |
| PositionService.ApplyExecution | app/services/position_service.py:26-68 | the position is created or loaded, moved by the fill and marked at the market price, or at the fill price without one |
| ExecutionService.ReleaseRemainingReservation | app/services/execution_service.py:328-336 | gives back what a buy still holds, refuses when less is reserved, leaves other orders' accounts alone |
| ExecutionService.CancelRemaining | app/services/execution_service.py:298-326 | releases the reservation, moves the remainder to cancelled, closes the order with one audit entry |
| ExecutionService.TakeFill | app/services/execution_service.py:149-156 | quantities move and the average absorbs the fill |
| ExecutionService.SettleCash | app/services/execution_service.py:175-186 | a buy pays out of reservation and cash, a sale adds cash, and a shortfall is refused |
| ExecutionService.SettleStatus | app/services/execution_service.py:204-248 | filled, partially filled, or an IOC remainder cancelled, with the matching audit entries |
| ExecutionService.ApplyFill | app/services/execution_service.py:122-248 | refuses, ignores or applies the fill exactly as its verdict says; ignoring changes nothing |
| ExecutionService.ApplyRejection | app/services/execution_service.py:250-275 | closes a routed order as its verdict says, changes nothing otherwise |
| ExecutionService.ApplyCancellation | app/services/execution_service.py:277-296 | closes a working order as its verdict says, changes nothing otherwise |
| ExecutionService.Dispatch | app/services/execution_service.py:105-120 | each kind of event goes to its handler, and no handled event is ignored by mistake |
| ExecutionService.ProcessEvent | app/services/execution_service.py:43-103 | the tables and the answer after the call are those of the atomic transaction |
| OrderService.FindByIdempotencyKey | app/repositories/order_repository.py:38-50 | the one order of the account under the key, or none |
| OrderService.ValidateAndRoute | app/services/order_service.py:129-175 | an order the account cannot pay for is rejected; otherwise a buy reserves its notional and the order is routed, with the audit entries of each status |
| OrderService.OpenOrder | app/services/order_service.py:94-175 | the session holds exactly what the verdict on a new order writes, and routes it exactly when it is to be submitted |
| OrderService.FailLocked | app/services/order_service.py:215-234 | a routed order is rejected and its reservation given back |
| OrderService.MarkRoutingFailure | app/services/order_service.py:208-234 | the tables and the answer are those of the atomic transaction |
| OrderService.PlaceOrder | app/services/order_service.py:71-175 | the tables and the answer are those of the atomic transaction, and the order to submit is the one it routed |
| OrderService.CreateOrder | app/services/order_service.py:63-206 | one transaction when the broker accepts or nothing is submitted; two, ending in a rejection and a BrokerUnavailable answer, when the submission raises |
| CancellationService.MarkPending | app/services/cancellation_service.py:37-56 | the tables and the answer are those of the atomic transaction; the broker is to be told exactly when the order went pending |
| CancellationService.RequestCancellation | app/services/cancellation_service.py:28-64 | tables, calls and answer are those of the atomic transaction |
| MarketDataService.Upsert | app/repositories/market_data_repository.py:17-41 | inserts, overwrites when the tick is not older, or keeps the stored price |
| MarketDataService.ListBySymbol | app/repositories/position_repository.py:43-53 | every position of the symbol once, and no other |
| MarketDataService.MarkAll | app/services/market_data_service.py:43-49 | each listed position gets the price as its mark and (price - average) * net as its unrealized profit; nothing else changes |
| MarketDataService.ApplyTick | app/services/market_data_service.py:20-49 | the tables after the loop over positions are those of the atomic transaction |
| AccountService.CreateAccount | app/services/account_service.py:17-39 | a new account, or a duplicate reported without change |
| FakeBrokerAdapter.FakeBroker.SubmitOrder | app/broker/fake.py:29-30 | starts one task for the order |
| FakeBrokerAdapter.FakeBroker.CancelOrder | app/broker/fake.py:32-33 | starts one task for the cancellation |
| FakeBrokerAdapter.FakeBroker.SimulateOrder | app/broker/fake.py:58-97 | puts one event on the queue and comes back only for the rest of a partial fill of a non-IOC order |
| FakeBrokerAdapter.FakeBroker.Resume | app/broker/fake.py:58-129 | the same for every kind of task |
| FakeBrokerAdapter.FakeBroker.StartTask | app/broker/fake.py:35-38 | one more task, under a key of its own |
| FakeBrokerAdapter.ShutDown | app/broker/fake.py:131-137 | closing the broker is the shutdown turn of the system: queue and tables stay, tasks are gone |
| FakeBrokerAdapter.WorkOnce | app/broker/worker.py:42-59 | takes the oldest event and handles it; the objects make the system's worker turn |
| FakeBrokerAdapter.SubmitOnce | app/services/order_service.py:177-189 | placing an order and starting the broker's task is one client turn of the system |
| FakeBrokerAdapter.CancelOnce | app/services/cancellation_service.py:58-59 | the same for a cancellation request |
| FakeBrokerAdapter.RunSchedule | app/main.py:37-79 | running any schedule on the objects ends where the transition relation says; every event the worker took was answered without an error if and only if nothing was dropped, which holds for the schedules GoodSchedules covers |

## Left out

- Steps.WriteIsGood: in rounded storage, fills with more than eight decimals are left out, because they can break two of the relations: the reservation ledger, exactly when the slip of `FineFills.FillMovesLedgerBy` exceeds half a unit, and the order row, exactly on the condition of `FineFills.FillKeepsOrderIff`. How such a fill's stored quantity replays in the position is not stated.
- Steps.StepKeepsInv: the same fills are left out, on the same two conditions.
- Steps.RunKeepsInv: the same fills are left out.
- Money.StepDrift: the same fills are left out; `FineFills.FillMovesLedgerBy` gives the exact drift they add.
- Money.ReservationLedger: runs without such fills; `FineFills.FineFillsBreakTheLedger` shows that the bound fails with them.
- Lifecycle.StatusQuantityCoherence: in rounded storage, states reached without such fills; `FineFills.FineFillsStrandAReservation` shows that it fails with them and `FineFills.FillKeepsOrderIff` says exactly when.
- RowLocks.InterleavingsAreSerial: does not compare marks and unrealized profit, because the market price is read without a lock and two orders of commits can show different marks until the next tick; nor the answers of transactions that write nothing.
- RowLocks.NoWaitCycle: covers row locks on orders, accounts and positions; waits on unique index entries are not modelled (uniqueness is settled at commit), and a tick is one move that waits until no transaction holds a position of its symbol.
- PositionRules.FillConserves: excludes fills of quantity zero or less, which the service refuses before it touches a position; on a flat position the calculation would divide by zero.
- Callbacks.BatchIsApplied: in rounded storage, for callbacks whose notionals are stored as they are, on an order its reservation covers; otherwise a callback can meet a reservation that is too small, on the condition of `Guards.WithinLimitFillCommitsIff`.
- Callbacks.ArrivalOrderDoesNotMatter: the same callbacks only.
- SimulatedBroker.WorkerNeverDropsAFill: in rounded storage, buys priced in fractions are left out, for which `DroppedFills.WorkerCanDropAFill` shows that it fails; `SimulatedBroker.NextIsDroppedIff` has the exact condition.
- SimulatedBroker.SystemStaysOk: schedules are followed up to the first dropped event; after it, an order can wait for an event that is gone.
- SimulatedBroker.ShutdownLeavesHanging: the application cancels the worker right after closing the broker (app/main.py:74-77), so the queue is generally lost; then the tables stay as they are.
- SimulatedBroker.NothingLeftHanging: a safety statement about states without tasks and events; that delays end is not modelled.
- Lifecycle.FinitelyManyEventsApply: counts in units of 10^-8, so it is stated for rounded storage, where quantities are whole units.
- Broker submissions that raise are outside the simulated broker, whose submission only starts a task; `OrderService.CreateOrder` covers them.
- Crashes between commit and submission, and durable delivery of events.
- The expiry scan's query and its limit of 100; an expiry is a cancellation request that may come at any moment.
- The order's version counter, timestamps, currency, broker order id, and the JSON details of audit entries and event records.
- Order and event listings, pagination, and reads of single rows.
- HTTP routes, request parsing beyond the positivity and decimal rules, error translation and logging.
- The market data client: connecting, parsing and normalising ticks.
- Lengths of stored strings, overflow of NUMERIC(24, 8) and the 28-digit decimal context.
- SQL, the ORM's identity map beyond one order, account and position per session, and PostgreSQL's own locking.
